/**
 Version checks: `cleanVersion`, and `compareVersion` on dotted decimal versions. Canonical numerals and their order are
 those of sections 2 and 11 of Semantic Versioning 2.0.0; a missing minor or patch number counts as zero, as it does for
 Go's semver package.
 */
module Versions {
  import opened Services
  import opened Strings

  // ---- Dotted strings ----------------------------------------------------------------------------------------------

  function Split(s: string): (r: seq<string>)
    ensures |r| > 0
  {
    if s == "" then [""]
    else
      var rest := Split(s[1..]);
      if s[0] == '.' then [""] + rest else [[s[0]] + rest[0]] + rest[1..]
  }

  function Join(parts: seq<string>): string
    requires parts != []
  {
    parts[0] + if |parts| == 1 then "" else "." + Join(parts[1..])
  }

  ghost predicate DotFree(parts: seq<string>) {
    forall i :: 0 <= i < |parts| ==> '.' !in parts[i]
  }

  lemma {:induction false} SplitIsDotFree(s: string)
    ensures DotFree(Split(s))
  {
    if s != "" {
      SplitIsDotFree(s[1..]);
      assert forall i :: 0 <= i < |Split(s)| ==> '.' !in Split(s)[i];
    }
  }

  lemma {:induction false} SplitPrefix(p: string, s: string)
    requires '.' !in p
    ensures Split(p + s) == [p + Split(s)[0]] + Split(s)[1..]
    decreases p
  {
    if p == "" {
      assert p + s == s && p + Split(s)[0] == Split(s)[0];
      assert [Split(s)[0]] + Split(s)[1..] == Split(s);
    } else {
      assert (p + s)[1..] == p[1..] + s && (p + s)[0] == p[0] && p[0] in p;
      SplitPrefix(p[1..], s);
      assert [p[0]] + (p[1..] + Split(s)[0]) == p + Split(s)[0];
    }
  }

  lemma {:induction false} SplitJoin(parts: seq<string>)
    requires parts != [] && DotFree(parts)
    ensures Split(Join(parts)) == parts
    decreases parts
  {
    if |parts| == 1 {
      SplitPrefix(parts[0], "");
      assert parts[0] + "" == parts[0] && parts == [parts[0]];
    } else {
      SplitJoin(parts[1..]);
      var rest := "." + Join(parts[1..]);
      SplitPrefix(parts[0], rest);
      assert rest[1..] == Join(parts[1..]) && Split(rest) == [""] + parts[1..];
      assert parts[0] + "" == parts[0] && [parts[0]] + parts[1..] == parts;
    }
  }

  // ---- Cleaning ----------------------------------------------------------------------------------------------------

  function TrimZeros(p: string): (r: string)
    ensures |r| <= |p| && (r != "" ==> r[0] != '0')
    ensures forall c :: c in r ==> c in p
  {
    if p != "" && p[0] == '0' then TrimZeros(p[1..]) else p
  }

  function CleanPart(p: string): string {
    if p != "0" then TrimZeros(p) else p
  }

  function CleanParts(parts: seq<string>): (r: seq<string>)
    ensures |r| == |parts| && forall i :: 0 <= i < |r| ==> r[i] == CleanPart(parts[i])
  {
    seq(|parts|, i requires 0 <= i < |parts| => CleanPart(parts[i]))
  }

  function CleanVersion(version: string): string {
    Join(CleanParts(Split(version)))
  }

  method ComputeCleanVersion(version: string) returns (cleaned: string)
    ensures cleaned == CleanVersion(version)
  {
    var versionCleaned: seq<string> := [];
    var parts := Split(version);
    for i := 0 to |parts|
      invariant versionCleaned == CleanParts(parts[..i])
    {
      var part := parts[i];
      if part != "0" { part := TrimZeros(part); }
      versionCleaned := versionCleaned + [part];
    }
    assert parts[..|parts|] == parts;
    cleaned := Join(versionCleaned);
  }

  /** Cleaning acts on each component by itself. */
  lemma CleanedParts(version: string)
    ensures Split(CleanVersion(version)) == CleanParts(Split(version))
  {
    SplitIsDotFree(version);
    SplitJoin(CleanParts(Split(version)));
  }

  /** Cleaning a second time changes nothing, whatever the string. */
  lemma CleanTwice(version: string)
    ensures CleanVersion(CleanVersion(version)) == CleanVersion(version)
  {
    CleanedParts(version);
    var once := CleanParts(Split(version));
    forall i | 0 <= i < |once| ensures CleanPart(once[i]) == once[i] {
      if once[i] != "0" { TrimTrimmed(once[i]); }
    }
    assert CleanParts(once) == once;
  }

  lemma TrimTrimmed(p: string)
    requires p == "" || p[0] != '0'
    ensures TrimZeros(p) == p
  {
  }

  // ---- Numbers -----------------------------------------------------------------------------------------------------

  predicate Digits(p: string) {
    forall i :: 0 <= i < |p| ==> '0' <= p[i] <= '9'
  }

  function Digit(c: char): (d: nat)
    requires '0' <= c <= '9'
    ensures d <= 9
  {
    c as int - '0' as int
  }

  function Number(p: string): nat
    requires Digits(p)
  {
    if p == "" then 0 else 10 * Number(p[..|p| - 1]) + Digit(p[|p| - 1])
  }

  function Pow10(n: nat): nat {
    if n == 0 then 1 else 10 * Pow10(n - 1)
  }

  lemma {:induction false} LeadingZero(p: string)
    requires Digits(p) && p != "" && p[0] == '0'
    ensures Number(p[1..]) == Number(p)
    decreases p
  {
    if |p| > 1 {
      var front := p[..|p| - 1];
      LeadingZero(front);
      assert p[1..][..|p| - 2] == front[1..];
    }
  }

  /** Trimming keeps the value. */
  lemma {:induction false} TrimKeepsNumber(p: string)
    requires Digits(p)
    ensures Digits(TrimZeros(p)) && Number(TrimZeros(p)) == Number(p)
    decreases p
  {
    if p != "" && p[0] == '0' {
      LeadingZero(p);
      TrimKeepsNumber(p[1..]);
    }
  }

  lemma {:induction false} NumberRange(p: string)
    requires Digits(p)
    ensures Number(p) < Pow10(|p|)
    ensures p != "" && p[0] != '0' ==> Number(p) >= Pow10(|p| - 1)
    decreases p
  {
    if |p| > 1 {
      NumberRange(p[..|p| - 1]);
    }
  }

  lemma {:induction false} Pow10Grows(a: nat, b: nat)
    requires a <= b
    ensures Pow10(a) <= Pow10(b)
    decreases b
  {
    if a < b { Pow10Grows(a, b - 1); }
  }

  // ---- Semantic versions -------------------------------------------------------------------------------------------

  /** A numeric identifier without leading zeros. */
  predicate Numeral(p: string) {
    p != "" && Digits(p) && (p[0] == '0' ==> p == "0")
  }

  function CompareNumerals(x: string, y: string): int {
    if x == y then 0
    else if |x| < |y| then -1
    else if |x| > |y| then 1
    else if Precedes(x, y) then -1
    else 1
  }

  predicate Numerals(parts: seq<string>) {
    forall i :: 0 <= i < |parts| ==> Numeral(parts[i])
  }

  /** Major and minor of a version, or nothing if it is not a valid one. */
  function MajorMinor(version: string): Option<(string, string)> {
    var parts := Split(version);
    if |parts| > 3 || !Numerals(parts) then None
    else Some((parts[0], if |parts| == 1 then "0" else parts[1]))
  }

  /** Invalid versions come before all valid ones. */
  function Compare(v: Option<(string, string)>, w: Option<(string, string)>): int {
    match (v, w)
    case (None, None) => 0
    case (None, Some(_)) => -1
    case (Some(_), None) => 1
    case (Some(a), Some(b)) =>
      var major := CompareNumerals(a.0, b.0);
      if major != 0 then major else CompareNumerals(a.1, b.1)
  }

  /** `compareVersion` without its warning. */
  predicate Supported(present: string, min: string) {
    Compare(MajorMinor(CleanVersion(present)), MajorMinor(CleanVersion(min))) != -1
  }

  lemma {:induction false} PrecedesByLast(x: string, y: string)
    requires |x| == |y| > 0
    ensures var (a, b) := (x[..|x| - 1], y[..|y| - 1]);
            Precedes(x, y) <==> Precedes(a, b) || (a == b && x[|x| - 1] < y[|y| - 1])
    decreases x
  {
    if |x| > 1 {
      PrecedesByLast(x[1..], y[1..]);
      var (a, b) := (x[..|x| - 1], y[..|y| - 1]);
      assert x[1..][..|x| - 2] == a[1..] && y[1..][..|y| - 2] == b[1..];
      assert a == [a[0]] + a[1..] && b == [b[0]] + b[1..];
    }
  }

  /** For strings of the same length the order of strings is the order of numbers. */
  lemma {:induction false} SameLengthOrder(x: string, y: string)
    requires Digits(x) && Digits(y) && |x| == |y|
    ensures Precedes(x, y) <==> Number(x) < Number(y)
    ensures x == y <==> Number(x) == Number(y)
    decreases x
  {
    if x != "" {
      var (a, b) := (x[..|x| - 1], y[..|y| - 1]);
      SameLengthOrder(a, b);
      PrecedesByLast(x, y);
      assert x == a + [x[|x| - 1]] && y == b + [y[|y| - 1]];
    }
  }

  lemma LongerIsLarger(x: string, y: string)
    requires Numeral(x) && Numeral(y) && |x| < |y|
    ensures Number(x) < Number(y)
  {
    NumberRange(x);
    NumberRange(y);
    Pow10Grows(|x|, |y| - 1);
  }

  /** Numerals compare as numbers. */
  lemma NumeralOrder(x: string, y: string)
    requires Numeral(x) && Numeral(y)
    ensures CompareNumerals(x, y) < 0 <==> Number(x) < Number(y)
    ensures CompareNumerals(x, y) == 0 <==> Number(x) == Number(y)
    ensures -1 <= CompareNumerals(x, y) <= 1
  {
    if |x| < |y| {
      LongerIsLarger(x, y);
    } else if |y| < |x| {
      LongerIsLarger(y, x);
    } else {
      SameLengthOrder(x, y);
    }
  }

  // ---- When a version is rejected ----------------------------------------------------------------------------------

  /** Dotted decimal, with any leading zeros. */
  ghost predicate Decimal(version: string) {
    forall i :: 0 <= i < |Split(version)| ==> Split(version)[i] != "" && Digits(Split(version)[i])
  }

  /** Two zeros or more and nothing else. */
  predicate ZeroRun(p: string) {
    |p| > 1 && forall i :: 0 <= i < |p| ==> p[i] == '0'
  }

  ghost predicate HasZeroRun(version: string) {
    exists i :: 0 <= i < |Split(version)| && ZeroRun(Split(version)[i])
  }

  function Major(version: string): nat
    requires Decimal(version)
  {
    Number(Split(version)[0])
  }

  function Minor(version: string): nat
    requires Decimal(version)
  {
    if |Split(version)| == 1 then 0 else Number(Split(version)[1])
  }

  lemma {:induction false} TrimToNothing(p: string)
    ensures TrimZeros(p) == "" <==> forall i :: 0 <= i < |p| ==> p[i] == '0'
    decreases p
  {
    if p != "" && p[0] == '0' {
      TrimToNothing(p[1..]);
      assert forall i :: 1 <= i < |p| ==> p[i] == p[1..][i - 1];
    }
  }

  /** A component is a numeral of the same value once it is cleaned, unless it is a run of zeros. */
  lemma CleanPartIs(p: string)
    requires Digits(p) && p != ""
    ensures Digits(CleanPart(p)) && Number(CleanPart(p)) == Number(p)
    ensures Numeral(CleanPart(p)) <==> !ZeroRun(p)
  {
    TrimKeepsNumber(p);
    TrimToNothing(p);
    if |p| == 1 && p[0] == '0' { assert p == "0"; }
  }

  lemma CleanedNumerals(parts: seq<string>)
    requires forall i :: 0 <= i < |parts| ==> parts[i] != "" && Digits(parts[i])
    ensures Numerals(CleanParts(parts)) <==> !exists i :: 0 <= i < |parts| && ZeroRun(parts[i])
  {
    forall i | 0 <= i < |parts| ensures Numeral(CleanParts(parts)[i]) <==> !ZeroRun(parts[i]) {
      CleanPartIs(parts[i]);
    }
  }

  lemma MajorMinorIs(version: string)
    requires Decimal(version)
    ensures MajorMinor(CleanVersion(version)) == None <==> HasZeroRun(version) || |Split(version)| > 3
    ensures MajorMinor(CleanVersion(version)).Some? ==>
              var (major, minor) := MajorMinor(CleanVersion(version)).value;
              Numeral(major) && Numeral(minor) && Number(major) == Major(version) && Number(minor) == Minor(version)
  {
    CleanedParts(version);
    var parts := Split(version);
    CleanedNumerals(parts);
    CleanPartIs(parts[0]);
    if |parts| > 1 { CleanPartIs(parts[1]); }
    assert Number("0") == 0 by { assert "0"[..0] == ""; }
  }

  /**
   A dotted decimal version is rejected exactly when a component is a run of two or more zeros, when there are more than
   three components, or when major and minor are numerically below the minimum.
   */
  lemma RejectedIff(present: string, min: string)
    requires Decimal(present) && Decimal(min) && !HasZeroRun(min) && |Split(min)| <= 3
    ensures !Supported(present, min) <==>
            || HasZeroRun(present) || |Split(present)| > 3
            || Major(present) < Major(min) || (Major(present) == Major(min) && Minor(present) < Minor(min))
  {
    MajorMinorIs(present);
    MajorMinorIs(min);
    var (v, w) := (MajorMinor(CleanVersion(present)), MajorMinor(CleanVersion(min)));
    if v.Some? {
      NumeralOrder(v.value.0, w.value.0);
      NumeralOrder(v.value.1, w.value.1);
    }
  }

  // ---- The services ------------------------------------------------------------------------------------------------

  /** The minimum for a service; MicroCloud has none, it is always the local one. */
  function Minimum(s: Service): Option<string> {
    match s
    case LXD => Some("5.21")
    case MicroCeph => Some("19.2")
    case MicroOVN => Some("24.03")
    case MicroCloud => None
  }

  /** `extracted` is the first three-component version inside MicroCeph's version string, if there is one. */
  predicate ValidVersion(s: Service, version: string, extracted: Option<string>) {
    match s
    case MicroCloud => true
    case MicroCeph => extracted.Some? && Supported(extracted.value, Minimum(MicroCeph).value)
    case _ => Supported(version, Minimum(s).value)
  }

  lemma SplitTwo(a: string, b: string)
    requires '.' !in a && '.' !in b
    ensures Split(a + "." + b) == [a, b]
  {
    SplitJoin([a, b]);
    assert [a, b][1..] == [b];
    assert Join([a, b]) == a + ("." + b);
    assert a + ("." + b) == a + "." + b;
  }

  predicate Component(p: string) {
    '.' !in p && p != "" && Digits(p) && !ZeroRun(p)
  }

  lemma TwoComponents(a: string, b: string)
    requires Component(a) && Component(b)
    ensures var v := a + "." + b;
            Decimal(v) && !HasZeroRun(v) && |Split(v)| == 2 && Major(v) == Number(a) && Minor(v) == Number(b)
  {
    SplitTwo(a, b);
  }

  /** A version of at most three components without runs of zeros is at least `a.b`. */
  ghost predicate AtLeast(version: string, a: nat, b: nat)
    requires Decimal(version)
  {
    Major(version) > a || (Major(version) == a && Minor(version) >= b)
  }

  lemma SupportedFrom(version: string, a: string, b: string)
    requires Decimal(version) && !HasZeroRun(version) && |Split(version)| <= 3 && Component(a) && Component(b)
    ensures Supported(version, a + "." + b) <==> AtLeast(version, Number(a), Number(b))
  {
    TwoComponents(a, b);
    RejectedIff(version, a + "." + b);
  }

  /** LXD is supported from 5.21 on. */
  lemma LxdMinimum(version: string)
    requires Decimal(version) && !HasZeroRun(version) && |Split(version)| <= 3
    ensures ValidVersion(LXD, version, None) <==> AtLeast(version, 5, 21)
  {
    OneDigit('5');
    TwoDigits('2', '1');
    SupportedFrom(version, ['5'], ['2', '1']);
    assert ['5'] + "." + ['2', '1'] == "5.21";
  }

  /** MicroCeph is supported from 19.2 on. */
  lemma MicroCephMinimum(version: string)
    requires Decimal(version) && !HasZeroRun(version) && |Split(version)| <= 3
    ensures ValidVersion(MicroCeph, "", Some(version)) <==> AtLeast(version, 19, 2)
  {
    TwoDigits('1', '9');
    OneDigit('2');
    SupportedFrom(version, ['1', '9'], ['2']);
    assert ['1', '9'] + "." + ['2'] == "19.2";
  }

  /** MicroOVN is supported from 24.03 on, that is, from 24.3 in numbers. */
  lemma MicroOvnMinimum(version: string)
    requires Decimal(version) && !HasZeroRun(version) && |Split(version)| <= 3
    ensures ValidVersion(MicroOVN, version, None) <==> AtLeast(version, 24, 3)
  {
    TwoDigits('2', '4');
    TwoDigits('0', '3');
    SupportedFrom(version, ['2', '4'], ['0', '3']);
    assert ['2', '4'] + "." + ['0', '3'] == "24.03";
  }

  lemma OneDigit(c: char)
    requires '0' <= c <= '9'
    ensures Component([c]) && Number([c]) == Digit(c)
  {
    assert [c][..0] == "";
  }

  lemma TwoDigits(c: char, d: char)
    requires '0' <= c <= '9' && '0' <= d <= '9' && (c != '0' || d != '0')
    ensures Component([c, d]) && Number([c, d]) == 10 * Digit(c) + Digit(d)
  {
    assert [c, d][0] == c && [c, d][1] == d;
    assert [c, d][..1] == [c];
    OneDigit(c);
  }
}
