/**
 * The durations SCORM packages report: decimal numbers, the scan that sums
 * numbers with their units, SCORM 2004's ISO 8601 durations and SCORM 1.2's
 * timespans. Numbers are exact.
 */
module ScormDurations {
  import opened Common

  // ----- Decimal numbers -----

  predicate IsDigit(c: char) {
    '0' <= c <= '9'
  }

  predicate AllDigits(s: string) {
    forall i | 0 <= i < |s| :: IsDigit(s[i])
  }

  predicate IsNumeric(c: char) {
    IsDigit(c) || c == '.'
  }

  predicate AllNumeric(s: string) {
    forall i | 0 <= i < |s| :: IsNumeric(s[i])
  }

  /** The number a run of digits denotes, leading zeros or not. */
  function Value(digits: string): nat
    requires AllDigits(digits)
  {
    if digits == [] then 0
    else 10 * Value(digits[..|digits| - 1]) + (digits[|digits| - 1] - '0') as nat
  }

  function Digits(n: nat): (s: string)
    ensures AllDigits(s) && s != []
  {
    if n < 10 then ['0' + n as char] else Digits(n / 10) + ['0' + (n % 10) as char]
  }

  lemma {:induction false} ValueOfDigits(n: nat)
    ensures Value(Digits(n)) == n
  {
    if n < 10 {
    } else {
      ValueOfDigits(n / 10);
      assert Digits(n)[..|Digits(n)| - 1] == Digits(n / 10);
    }
  }

  /** What digits after the point add. */
  function Fraction(digits: string): (f: real)
    requires AllDigits(digits)
    ensures 0.0 <= f < 1.0
  {
    if digits == [] then 0.0
    else ((digits[0] - '0') as int as real + Fraction(digits[1..])) / 10.0
  }

  function IndexOf(s: string, c: char): (k: Option<nat>)
    ensures k.Some? ==> k.value < |s| && s[k.value] == c
  {
    if s == [] then None
    else if s[0] == c then Some(0)
    else
      match IndexOf(s[1..], c)
      case None => None
      case Some(k) => Some(k + 1)
  }

  lemma {:induction false} IndexOfNone(s: string, c: char)
    ensures IndexOf(s, c).None? <==> c !in s
  {
    if s == [] {
    } else {
      IndexOfNone(s[1..], c);
    }
  }

  lemma {:induction false} IndexOfFirst(a: string, c: char, b: string)
    requires c !in a
    ensures IndexOf(a + [c] + b, c) == Some(|a|)
  {
    if a == [] {
      assert a + [c] + b == [c] + b;
    } else {
      assert (a + [c] + b)[1..] == a[1..] + [c] + b;
      assert c !in a[1..];
      IndexOfFirst(a[1..], c, b);
    }
  }

  /** Digits with at most one point among them, and at least one digit. */
  function ParseUnsigned(s: string): Option<real> {
    match IndexOf(s, '.')
    case None => if AllDigits(s) && s != [] then Some(Value(s) as real) else None
    case Some(k) =>
      var whole, after := s[..k], s[k + 1..];
      if AllDigits(whole) && AllDigits(after) && |s| > 1 then Some(Value(whole) as real + Fraction(after)) else None
  }

  /** strconv.ParseFloat on decimals without an exponent. */
  function ParseFloat(s: string): Option<real> {
    if s != [] && s[0] == '-' then
      match ParseUnsigned(s[1..])
      case Some(f) => Some(-f)
      case None => None
    else ParseUnsigned(if s != [] && s[0] == '+' then s[1..] else s)
  }

  /** `v` divided by ten `n` times. */
  function Tenths(v: real, n: nat): real {
    if n == 0 then v else Tenths(v, n - 1) / 10.0
  }

  /** `v` times ten, `n` times. */
  function Tens(v: nat, n: nat): nat {
    if n == 0 then v else 10 * Tens(v, n - 1)
  }

  lemma {:induction false} TenthsAdd(a: real, b: real, n: nat)
    ensures Tenths(a + b, n) == Tenths(a, n) + Tenths(b, n)
  {
    if n == 0 {
    } else {
      TenthsAdd(a, b, n - 1);
    }
  }

  lemma {:induction false} TenthsInside(v: real, n: nat)
    ensures Tenths(v / 10.0, n) == Tenths(v, n) / 10.0
  {
    if n == 0 {
    } else {
      TenthsInside(v, n - 1);
    }
  }

  lemma {:induction false} TenthsOfTens(v: nat, n: nat)
    ensures Tenths(Tens(v, n) as real, n) == v as real
  {
    if n == 0 {
    } else {
      TenthsInside(Tens(v, n) as real, n - 1);
      assert Tens(v, n) as real / 10.0 == Tens(v, n - 1) as real;
      TenthsOfTens(v, n - 1);
    }
  }

  function Digit(c: char): nat
    requires IsDigit(c)
  {
    (c - '0') as nat
  }

  /** The first digit counts for as many tens as there are digits after it. */
  lemma {:induction false} ValueFront(c: char, tail: string)
    requires IsDigit(c) && AllDigits(tail)
    ensures Value([c] + tail) == Tens(Digit(c), |tail|) + Value(tail)
  {
    if tail == [] {
      assert ([c] + tail)[..0] == [];
    } else {
      var n := |tail| - 1;
      ValueFront(c, tail[..n]);
      assert ([c] + tail)[..n + 1] == [c] + tail[..n];
    }
  }

  /** So digits after the point denote their number, divided by ten for each of them. */
  lemma {:induction false} FractionIs(digits: string)
    requires AllDigits(digits)
    ensures Fraction(digits) == Tenths(Value(digits) as real, |digits|)
  {
    if digits == [] {
    } else {
      var c, tail := digits[0], digits[1..];
      assert [c] + tail == digits;
      FractionIs(tail);
      ValueFront(c, tail);
      TenthsAdd(Tens(Digit(c), |tail|) as real, Value(tail) as real, |tail|);
      TenthsOfTens(Digit(c), |tail|);
    }
  }

  /** A decimal as it is written: a sign or none, digits, and perhaps a point and more digits. */
  datatype Decimals = Decimals(sign: string, whole: string, point: bool, fraction: string)

  predicate WellWritten(n: Decimals) {
    && n.sign in ["", "+", "-"] && AllDigits(n.whole) && AllDigits(n.fraction) && |n.whole| + |n.fraction| > 0
    && (!n.point ==> n.fraction == "")
  }

  function DecimalText(n: Decimals): string {
    n.sign + (if n.point then n.whole + ['.'] + n.fraction else n.whole)
  }

  /** What it denotes. */
  function DecimalValue(n: Decimals): real
    requires WellWritten(n)
  {
    var size := Value(n.whole) as real + Tenths(Value(n.fraction) as real, |n.fraction|);
    if n.sign == "-" then -size else size
  }

  lemma PointRead(whole: string, fraction: string)
    requires AllDigits(whole) && AllDigits(fraction) && |whole| + |fraction| > 0
    ensures
      var r := ParseUnsigned(whole + ['.'] + fraction);
      r.Some? && r.value == Value(whole) as real + Fraction(fraction)
  {
    var s := whole + ['.'] + fraction;
    IndexOfFirst(whole, '.', fraction);
    assert s[..|whole|] == whole && s[|whole| + 1..] == fraction;
  }

  lemma UnsignedRead(whole: string, point: bool, fraction: string)
    requires AllDigits(whole) && AllDigits(fraction) && |whole| + |fraction| > 0 && (!point ==> fraction == "")
    ensures
      var s := if point then whole + ['.'] + fraction else whole;
      && s != "" && s[0] != '-' && s[0] != '+'
      && ParseUnsigned(s).Some? && ParseUnsigned(s).value == Value(whole) as real + Fraction(fraction)
  {
    if point {
      PointRead(whole, fraction);
    } else {
      IndexOfNone(whole, '.');
    }
  }

  lemma SignedRead(sign: string, s: string)
    requires sign in ["", "+", "-"] && s != "" && s[0] != '-' && s[0] != '+' && ParseUnsigned(s).Some?
    ensures
      var r := ParseFloat(sign + s);
      r.Some? && r.value == if sign == "-" then -ParseUnsigned(s).value else ParseUnsigned(s).value
  {
    if sign == "" {
      assert sign + s == s;
    } else {
      assert (sign + s)[1..] == s;
    }
  }

  /** Every such text is read as what it denotes... */
  lemma DecimalRead(n: Decimals)
    requires WellWritten(n)
    ensures ParseFloat(DecimalText(n)).Some? && ParseFloat(DecimalText(n)).value == DecimalValue(n)
  {
    FractionIs(n.fraction);
    UnsignedRead(n.whole, n.point, n.fraction);
    SignedRead(n.sign, if n.point then n.whole + ['.'] + n.fraction else n.whole);
  }

  /** ...and no other is read as a number. */
  lemma ReadIsDecimal(s: string) returns (n: Decimals)
    requires ParseFloat(s).Some?
    ensures WellWritten(n) && s == DecimalText(n) && ParseFloat(s).value == DecimalValue(n)
  {
    if s[0] == '-' {
      n := UnsignedIsDecimal("-", s[1..]);
      assert s == "-" + s[1..];
    } else if s[0] == '+' {
      n := UnsignedIsDecimal("+", s[1..]);
      assert s == "+" + s[1..];
    } else {
      n := UnsignedIsDecimal("", s);
      assert s == "" + s;
    }
    DecimalRead(n);
  }

  lemma UnsignedIsDecimal(sign: string, s: string) returns (n: Decimals)
    requires ParseUnsigned(s).Some? && sign in ["", "+", "-"]
    ensures WellWritten(n) && DecimalText(n) == sign + s
  {
    match IndexOf(s, '.') {
      case None => n := Decimals(sign, s, false, "");
      case Some(k) =>
        n := Decimals(sign, s[..k], true, s[k + 1..]);
        assert s == s[..k] + ['.'] + s[k + 1..];
    }
  }

  /** strconv.Atoi. */
  function Atoi(s: string): Option<int> {
    var digits := if s != [] && s[0] in "+-" then s[1..] else s;
    if digits == [] || !AllDigits(digits) then None
    else
      var v: int := Value(digits);
      Some(if s[0] == '-' then -v else v)
  }

  /** A sign or none and digits are read as the whole number they denote. */
  lemma AtoiRead(sign: string, digits: string)
    requires sign in ["", "+", "-"] && AllDigits(digits) && digits != []
    ensures
      var r := Atoi(sign + digits);
      r.Some? && r.value == if sign == "-" then -(Value(digits) as int) else Value(digits)
  {
    var s := sign + digits;
    if sign == "" {
      assert s == digits;
    } else {
      assert s[0] == sign[0] && s[1..] == digits;
    }
  }

  // ----- The scan -----

  /** `n` units of `weight` seconds each, summed up. */
  function Times(n: nat, weight: nat): nat {
    if n == 0 then 0 else Times(n - 1, weight) + weight
  }

  lemma {:induction false} TimesIs(n: nat, weight: nat)
    ensures Times(n, weight) == n * weight
  {
    if n == 0 {
    } else {
      TimesIs(n - 1, weight);
    }
  }

  /** The seconds each unit letter stands for, and what a number counts as. */
  datatype Units = Units(weight: map<char, nat>, number: string -> Option<nat>)

  ghost predicate Decimal(units: Units) {
    forall num :: units.number(num) == WholeOf(num)
  }

  /** A scan under way: what it has summed, and the number it is reading. */
  datatype Scan = Failed | Scanning(total: nat, num: string)

  /** A number counts as its whole part, the digits before the point. */
  function WholeOf(num: string): Option<nat> {
    var whole := WholeDigits(num);
    if ParseUnsigned(num).Some? && AllDigits(whole) then Some(Value(whole)) else None
  }

  function WholeDigits(num: string): string {
    match IndexOf(num, '.')
    case None => num
    case Some(k) => num[..k]
  }

  function Step(scan: Scan, c: char, units: Units): Scan {
    match scan
    case Failed => Failed
    case Scanning(total, num) =>
      if IsNumeric(c) then Scanning(total, num + [c])
      else if c !in units.weight || num == "" || units.number(num).None? then Failed
      else Scanning(total + Times(units.number(num).value, units.weight[c]), "")
  }

  function Scanned(s: string, units: Units): Scan {
    if s == [] then Scanning(0, "") else Step(Scanned(s[..|s| - 1], units), s[|s| - 1], units)
  }

  /** The sum of the numbers of `s`, each times the unit after it; a number without a unit is an error. */
  function Field(s: string, units: Units): Option<nat> {
    match Scanned(s, units)
    case Scanning(total, num) => if num == "" then Some(total) else None
    case Failed => None
  }

  method ScanDurationField(s: string, units: Units) returns (r: Option<nat>)
    requires Decimal(units)
    ensures r == Field(s, units)
  {
    var total: nat := 0;
    var num := "";
    for i := 0 to |s|
      invariant Scanned(s[..i], units) == Scanning(total, num)
    {
      ScannedMore(s, i, units);
      var c := s[i];
      if IsDigit(c) || c == '.' {
        num := num + [c];
        continue;
      }
      WholeIsFloor(num);
      var f := ParseUnsigned(num);
      if c !in units.weight || num == "" || f.None? {
        FailureStays(s, i + 1, units);
        return None;
      }
      TimesIs(f.value.Floor, units.weight[c]);
      total := total + f.value.Floor * units.weight[c];
      num := "";
    }
    assert s[..|s|] == s;
    r := if num != "" then None else Some(total);
  }

  lemma ScannedMore(s: string, i: nat, units: Units)
    requires i < |s|
    ensures Scanned(s[..i + 1], units) == Step(Scanned(s[..i], units), s[i], units)
  {
    assert s[..i + 1][..i] == s[..i];
  }

  lemma {:induction false} FailureStays(s: string, i: nat, units: Units)
    requires i <= |s| && Scanned(s[..i], units).Failed?
    ensures Scanned(s, units).Failed?
  {
    if i == |s| {
      assert s[..i] == s;
    } else {
      assert s[..|s| - 1][..i] == s[..i];
      FailureStays(s[..|s| - 1], i, units);
    }
  }

  /** This is what truncating the number gives. */
  lemma WholeIsFloor(num: string)
    ensures WholeOf(num).Some? <==> ParseUnsigned(num).Some?
    ensures WholeOf(num).Some? ==> ParseUnsigned(num).value.Floor == WholeOf(num).value
  {
  }

  /** What was summed before comes on top. */
  function Shifted(scan: Scan, base: nat): Scan {
    match scan
    case Failed => Failed
    case Scanning(total, num) => Scanning(base + total, num)
  }

  lemma {:induction false} ScanContinues(a: string, b: string, units: Units)
    requires Field(a, units).Some?
    ensures Scanned(a + b, units) == Shifted(Scanned(b, units), Field(a, units).value)
  {
    if b == [] {
      assert a + b == a;
    } else {
      var n := |b| - 1;
      ScanContinues(a, b[..n], units);
      assert (a + b)[..|a + b| - 1] == a + b[..n];
    }
  }

  /** After a part that is accepted, the whole is accepted exactly when the rest is, and their values add up. */
  lemma FieldIsAdditive(a: string, b: string, units: Units)
    requires Field(a, units).Some?
    ensures Field(a + b, units).Some? <==> Field(b, units).Some?
    ensures Field(b, units).Some? ==> Field(a + b, units).value == Field(a, units).value + Field(b, units).value
  {
    ScanContinues(a, b, units);
  }

  // ----- What is accepted -----

  datatype Component = Component(num: string, unit: char)

  ghost predicate Fits(parts: seq<Component>, units: Units) {
    forall i | 0 <= i < |parts| ::
      parts[i].num != "" && AllNumeric(parts[i].num) && units.number(parts[i].num).Some? && parts[i].unit in units.weight
  }

  function Text(parts: seq<Component>): string {
    if parts == [] then "" else Text(parts[..|parts| - 1]) + parts[|parts| - 1].num + [parts[|parts| - 1].unit]
  }

  function Sum(parts: seq<Component>, units: Units): nat {
    if parts == [] then 0
    else
      var p := parts[|parts| - 1];
      Sum(parts[..|parts| - 1], units)
      + Times(units.number(p.num).GetOr(0), if p.unit in units.weight then units.weight[p.unit] else 0)
  }

  /** No unit letter can be taken for part of a number, for the separator T or for a space. */
  ghost predicate Plain(units: Units) {
    forall c | c in units.weight :: !IsNumeric(c) && c != 'T' && !IsSpace(c)
  }

  lemma {:induction false} ScanNumber(s: string, num: string, units: Units)
    requires Field(s, units).Some? && AllNumeric(num)
    ensures Scanned(s + num, units) == Scanning(Field(s, units).value, num)
  {
    if num == [] {
      assert s + num == s;
    } else {
      var n := |num| - 1;
      ScanNumber(s, num[..n], units);
      assert (s + num)[..|s + num| - 1] == s + num[..n];
    }
  }

  lemma ComponentAccepted(s: string, p: Component, units: Units)
    requires Field(s, units).Some? && Plain(units)
    requires p.num != "" && AllNumeric(p.num) && units.number(p.num).Some? && p.unit in units.weight
    ensures Field(s + p.num + [p.unit], units) ==
              Some(Field(s, units).value + Times(units.number(p.num).value, units.weight[p.unit]))
  {
    ScanNumber(s, p.num, units);
    var t := s + p.num;
    assert (t + [p.unit])[..|t|] == t;
  }

  /** Numbers each followed by a unit are accepted, for the sum of their whole parts times the units. */
  lemma {:induction false} ComponentsAccepted(parts: seq<Component>, units: Units)
    requires Fits(parts, units) && Plain(units)
    ensures Field(Text(parts), units) == Some(Sum(parts, units))
  {
    if parts == [] {
    } else {
      var n := |parts| - 1;
      ComponentsAccepted(parts[..n], units);
      ComponentAccepted(Text(parts[..n]), parts[n], units);
    }
  }

  /** And nothing else is. */
  lemma {:induction false} AcceptedIsComponents(s: string, units: Units) returns (parts: seq<Component>)
    requires Scanned(s, units).Scanning?
    ensures Fits(parts, units) && AllNumeric(Scanned(s, units).num)
    ensures s == Text(parts) + Scanned(s, units).num && Sum(parts, units) == Scanned(s, units).total
  {
    if s == [] {
      parts := [];
    } else {
      var n := |s| - 1;
      var init := Scanned(s[..n], units);
      parts := AcceptedIsComponents(s[..n], units);
      assert s == s[..n] + [s[n]];
      if !IsNumeric(s[n]) {
        var more := parts + [Component(init.num, s[n])];
        assert more[..|parts|] == parts;
        assert Text(more) == Text(parts) + init.num + [s[n]];
        parts := more;
      }
    }
  }

  // ----- SCORM 2004 durations -----

  /** Unicode's White_Space, which strings.TrimSpace trims. */
  predicate IsSpace(c: char) {
    var u := c as int;
    || 9 <= u <= 13 || u == 0x20 || u == 0x85 || u == 0xA0 || u == 0x1680 || 0x2000 <= u <= 0x200A
    || u == 0x2028 || u == 0x2029 || u == 0x202F || u == 0x205F || u == 0x3000
  }

  /** These are its code points, in order. */
  lemma SpacesAre(c: char)
    ensures IsSpace(c) <==> c as int in [0x9, 0xA, 0xB, 0xC, 0xD, 0x20, 0x85, 0xA0, 0x1680, 0x2000, 0x2001, 0x2002, 0x2003,
                                         0x2004, 0x2005, 0x2006, 0x2007, 0x2008, 0x2009, 0x200A, 0x2028, 0x2029, 0x202F,
                                         0x205F, 0x3000]
  {
  }

  function TrimSpace(s: string): string {
    if s != [] && IsSpace(s[0]) then TrimSpace(s[1..])
    else if s != [] && IsSpace(s[|s| - 1]) then TrimSpace(s[..|s| - 1])
    else s
  }

  predicate Blank(s: string) {
    forall i | 0 <= i < |s| :: IsSpace(s[i])
  }

  predicate Solid(s: string) {
    s != [] && !IsSpace(s[0]) && !IsSpace(s[|s| - 1])
  }

  lemma {:induction false} TrimPadded(a: string, core: string, b: string)
    requires Blank(a) && Blank(b) && Solid(core)
    ensures TrimSpace(a + core + b) == core
    decreases |a| + |b|
  {
    var s := a + core + b;
    if a != [] {
      assert s[1..] == a[1..] + core + b;
      TrimPadded(a[1..], core, b);
    } else if b != [] {
      assert s[0] == core[0] && s[..|s| - 1] == a + core + b[..|b| - 1];
      TrimPadded(a, core, b[..|b| - 1]);
    } else {
      assert s == core;
    }
  }

  lemma {:induction false} TrimmedIs(s: string) returns (a: string, b: string)
    ensures Blank(a) && Blank(b) && s == a + TrimSpace(s) + b
    decreases |s|
  {
    a, b := [], [];
    if s != [] && IsSpace(s[0]) {
      a, b := TrimmedIs(s[1..]);
      a := [s[0]] + a;
    } else if s != [] && IsSpace(s[|s| - 1]) {
      a, b := TrimmedIs(s[..|s| - 1]);
      b := b + [s[|s| - 1]];
    }
  }

  const DATE_UNITS := Units(map['W' := 7 * 86400, 'D' := 86400], WholeOf)
  const TIME_UNITS := Units(map['H' := 3600, 'M' := 60, 'S' := 1], WholeOf)

  /** The parts around the first `sep`; without one, everything is before. */
  function Cut(s: string, sep: char): (string, string, bool) {
    match IndexOf(s, sep)
    case None => (s, "", false)
    case Some(k) => (s[..k], s[k + 1..], true)
  }

  /** The part before the T may be empty. */
  function DatePart(date: string, days: Units): Option<nat> {
    if date == "" then Some(0) else Field(date, days)
  }

  /** The part after it may only be missing. */
  function TimePart(time: string, hasT: bool, times: Units): Option<nat> {
    if !hasT then Some(0) else if time == "" then None else Field(time, times)
  }

  /** The parts before and after the T of a duration, given the units of days and those of times. */
  function PartsOf(date: string, time: string, hasT: bool, days: Units, times: Units): Option<nat> {
    var d, m := DatePart(date, days), TimePart(time, hasT, times);
    if d.None? || m.None? || (!hasT && date == "") then None else Some(d.value + m.value)
  }

  function Body2004(body: string): Option<nat> {
    var c := Cut(body, 'T');
    PartsOf(c.0, c.1, c.2, DATE_UNITS, TIME_UNITS)
  }

  function Duration2004(s: string): Option<nat> {
    var t := TrimSpace(s);
    if t == [] || t[0] != 'P' || |t| == 1 then None else Body2004(t[1..])
  }

  method ParseDuration2004(s: string) returns (r: Option<nat>)
    ensures r == Duration2004(s)
  {
    var t := TrimSpace(s);
    if t == [] || t[0] != 'P' {
      return None;
    }
    var body := t[1..];
    if body == "" {
      return None;
    }
    UnitsPlain();
    var c := Cut(body, 'T');
    r := ParseParts(c.0, c.1, c.2, DATE_UNITS, TIME_UNITS);
  }

  method ParseParts(date: string, time: string, hasT: bool, days: Units, times: Units) returns (r: Option<nat>)
    requires Decimal(days) && Decimal(times)
    ensures r == PartsOf(date, time, hasT, days, times)
  {
    var total := 0;
    var d := ParseDate(date, days);
    if d.None? {
      return None;
    }
    total := total + d.value;
    var m := ParseTime(time, hasT, times);
    if m.None? || (!hasT && date == "") {
      return None;
    }
    total := total + m.value;
    r := Some(total);
  }

  method ParseDate(date: string, days: Units) returns (r: Option<nat>)
    requires Decimal(days)
    ensures r == DatePart(date, days)
  {
    if date != "" {
      r := ScanDurationField(date, days);
    } else {
      r := Some(0);
    }
  }

  method ParseTime(time: string, hasT: bool, times: Units) returns (r: Option<nat>)
    requires Decimal(times)
    ensures r == TimePart(time, hasT, times)
  {
    if !hasT {
      return Some(0);
    }
    if time == "" {
      return None;
    }
    r := ScanDurationField(time, times);
  }

  /** The text of a duration: weeks and days, then after a T hours, minutes and seconds if there are any. */
  function BodyText(date: seq<Component>, time: seq<Component>): string {
    if time == [] then Text(date) else Text(date) + ['T'] + Text(time)
  }

  function DurationText(date: seq<Component>, time: seq<Component>): string {
    ['P'] + BodyText(date, time)
  }

  ghost predicate Durable(date: seq<Component>, time: seq<Component>, days: Units, times: Units) {
    Fits(date, days) && Fits(time, times) && (date != [] || time != [])
  }

  lemma {:induction false} TextChars(parts: seq<Component>, units: Units)
    requires Fits(parts, units) && Plain(units)
    ensures 'T' !in Text(parts)
    ensures parts != [] ==> Text(parts) != [] && !IsSpace(Text(parts)[|Text(parts)| - 1])
  {
    if parts == [] {
    } else {
      TextChars(parts[..|parts| - 1], units);
    }
  }

  lemma PartsAccepted(date: seq<Component>, time: seq<Component>, days: Units, times: Units)
    requires Durable(date, time, days, times) && Plain(days) && Plain(times)
    ensures
      var r := PartsOf(Text(date), Text(time), time != [], days, times);
      r.Some? && r.value == Sum(date, days) + Sum(time, times)
  {
    TextChars(date, days);
    TextChars(time, times);
    ComponentsAccepted(date, days);
    ComponentsAccepted(time, times);
  }

  lemma BodyCut(date: seq<Component>, time: seq<Component>, days: Units, times: Units)
    requires Durable(date, time, days, times) && Plain(days) && Plain(times)
    ensures
      var body := BodyText(date, time);
      && Cut(body, 'T') == (Text(date), Text(time), time != [])
      && body != [] && !IsSpace(body[|body| - 1])
  {
    TextChars(date, days);
    TextChars(time, times);
    if time != [] {
      CutAt(Text(date), 'T', Text(time));
    } else {
      IndexOfNone(Text(date), 'T');
    }
  }

  lemma CutAt(a: string, sep: char, b: string)
    requires sep !in a
    ensures Cut(a + [sep] + b, sep) == (a, b, true)
  {
    IndexOfFirst(a, sep, b);
    assert (a + [sep] + b)[..|a|] == a;
    assert (a + [sep] + b)[|a| + 1..] == b;
  }

  lemma UnitsPlain()
    ensures Plain(DATE_UNITS) && Plain(TIME_UNITS) && Decimal(DATE_UNITS) && Decimal(TIME_UNITS)
  {
  }

  /** Every duration is accepted, spaces around it or not, for the sum of its components... */
  lemma DurationAccepted(a: string, date: seq<Component>, time: seq<Component>, b: string)
    requires Blank(a) && Blank(b) && Durable(date, time, DATE_UNITS, TIME_UNITS)
    ensures
      var r := Duration2004(a + DurationText(date, time) + b);
      r.Some? && r.value == Sum(date, DATE_UNITS) + Sum(time, TIME_UNITS)
  {
    UnitsPlain();
    PartsAccepted(date, time, DATE_UNITS, TIME_UNITS);
    BodyCut(date, time, DATE_UNITS, TIME_UNITS);
    TrimmedBody(a, BodyText(date, time), b);
  }

  lemma TrimmedBody(a: string, body: string, b: string)
    requires Blank(a) && Blank(b) && body != [] && !IsSpace(body[|body| - 1])
    ensures TrimSpace(a + (['P'] + body) + b) == ['P'] + body
    ensures (['P'] + body)[1..] == body
  {
    TrimPadded(a, ['P'] + body, b);
  }

  /** ...and nothing else is. */
  lemma AcceptedIsDuration(s: string) returns (a: string, date: seq<Component>, time: seq<Component>, b: string)
    requires Duration2004(s).Some?
    ensures Blank(a) && Blank(b) && Durable(date, time, DATE_UNITS, TIME_UNITS) && s == a + DurationText(date, time) + b
    ensures Duration2004(s).value == Sum(date, DATE_UNITS) + Sum(time, TIME_UNITS)
  {
    a, b := TrimmedIs(s);
    date, time := AcceptedTrimmed(TrimSpace(s));
  }

  lemma AcceptedTrimmed(t: string) returns (date: seq<Component>, time: seq<Component>)
    requires |t| > 1 && t[0] == 'P' && Body2004(t[1..]).Some?
    ensures Durable(date, time, DATE_UNITS, TIME_UNITS) && t == DurationText(date, time)
    ensures Body2004(t[1..]).value == Sum(date, DATE_UNITS) + Sum(time, TIME_UNITS)
  {
    date, time := AcceptedBody(t[1..]);
    HeadTail(t);
  }

  lemma HeadTail(t: string)
    requires t != []
    ensures t == [t[0]] + t[1..]
  {
  }

  lemma AcceptedBody(body: string) returns (date: seq<Component>, time: seq<Component>)
    requires Body2004(body).Some?
    ensures Durable(date, time, DATE_UNITS, TIME_UNITS) && body == BodyText(date, time)
    ensures Body2004(body) == Some(Sum(date, DATE_UNITS) + Sum(time, TIME_UNITS))
  {
    var c := Cut(body, 'T');
    CutJoins(body, 'T');
    date, time := AcceptedParts(c.0, c.1, c.2, DATE_UNITS, TIME_UNITS);
  }

  lemma CutJoins(s: string, sep: char)
    ensures var c := Cut(s, sep); if c.2 then s == c.0 + [sep] + c.1 else s == c.0 && c.1 == ""
  {
  }

  lemma AcceptedParts(d: string, m: string, hasT: bool, days: Units, times: Units)
    returns (date: seq<Component>, time: seq<Component>)
    requires PartsOf(d, m, hasT, days, times).Some? && (!hasT ==> m == "")
    ensures Durable(date, time, days, times) && d == Text(date) && m == Text(time) && (hasT <==> time != [])
    ensures PartsOf(d, m, hasT, days, times) == Some(Sum(date, days) + Sum(time, times))
  {
    date := FieldComponents(d, days);
    time := FieldComponents(m, times);
  }

  lemma FieldComponents(s: string, units: Units) returns (parts: seq<Component>)
    requires s == "" || Field(s, units).Some?
    ensures Fits(parts, units) && Text(parts) == s && Field(s, units) == Some(Sum(parts, units))
    ensures s == "" <==> parts == []
  {
    if s == "" {
      parts := [];
    } else {
      parts := AcceptedIsComponents(s, units);
      assert Text(parts) + [] == Text(parts);
    }
  }

  /** Days, hours, minutes and seconds as they are written. */
  function Written(d: string, h: string, m: string, s: string): string {
    ['P'] + (d + ['D'] + ['T'] + (h + ['H'] + (m + ['M']) + (s + ['S'])))
  }

  /** Each in digits, they read as that many seconds. */
  lemma DigitsReadBack(d: string, h: string, m: string, s: string)
    requires AllDigits(d) && d != [] && AllDigits(h) && h != [] && AllDigits(m) && m != [] && AllDigits(s) && s != []
    ensures
      var r := Duration2004(Written(d, h, m, s));
      r.Some? && r.value == Value(d) * 86400 + Value(h) * 3600 + Value(m) * 60 + Value(s)
  {
    UnitsPlain();
    var date := DateRendered(d, DATE_UNITS);
    var time := TimeRendered(h, m, s, TIME_UNITS);
    BareDuration(date, time, Written(d, h, m, s));
  }

  /** So a duration written out in decimal reads back as the same number of seconds. */
  lemma RenderedReadsBack(days: nat, hours: nat, minutes: nat, seconds: nat)
    ensures
      var r := Duration2004(Written(Digits(days), Digits(hours), Digits(minutes), Digits(seconds)));
      r.Some? && r.value == days * 86400 + hours * 3600 + minutes * 60 + seconds
  {
    ValueOfDigits(days);
    ValueOfDigits(hours);
    ValueOfDigits(minutes);
    ValueOfDigits(seconds);
    DigitsReadBack(Digits(days), Digits(hours), Digits(minutes), Digits(seconds));
  }

  /** Weeks and days, each in digits. */
  lemma WeeksReadBack(w: string, d: string)
    requires AllDigits(w) && w != [] && AllDigits(d) && d != []
    ensures
      var r := Duration2004(['P'] + (w + ['W'] + (d + ['D'])));
      r.Some? && r.value == Value(w) * 604_800 + Value(d) * 86_400
  {
    UnitsPlain();
    var date := WeeksRendered(w, d, DATE_UNITS);
    DurationAccepted([], date, [], []);
    Unpadded(date, []);
  }

  lemma WeeksRendered(w: string, d: string, units: Units) returns (date: seq<Component>)
    requires units.weight == map['W' := 604_800, 'D' := 86_400] && Decimal(units)
    requires AllDigits(w) && w != [] && AllDigits(d) && d != []
    ensures date != [] && Fits(date, units) && Sum(date, units) == Value(w) * 604_800 + Value(d) * 86_400
    ensures Text(date) == w + ['W'] + (d + ['D'])
  {
    var first := [] + [Component(w, 'W')];
    date := first + [Component(d, 'D')];
    OneMore([], w, 'W', units);
    assert [] + (w + ['W']) == w + ['W'];
    OneMore(first, d, 'D', units);
  }

  lemma BareDuration(date: seq<Component>, time: seq<Component>, text: string)
    requires Durable(date, time, DATE_UNITS, TIME_UNITS) && time != []
    requires text == ['P'] + (Text(date) + ['T'] + Text(time))
    ensures
      var r := Duration2004(text);
      r.Some? && r.value == Sum(date, DATE_UNITS) + Sum(time, TIME_UNITS)
  {
    DurationAccepted([], date, time, []);
    Unpadded(date, time);
  }

  lemma DateRendered(d: string, units: Units) returns (date: seq<Component>)
    requires 'D' in units.weight && units.weight['D'] == 86400 && Decimal(units) && AllDigits(d) && d != []
    ensures Fits(date, units) && Sum(date, units) == Value(d) * 86400 && Text(date) == d + ['D']
  {
    date := [] + [Component(d, 'D')];
    OneMore([], d, 'D', units);
    assert [] + (d + ['D']) == d + ['D'];
  }

  lemma TimeRendered(h: string, m: string, s: string, units: Units) returns (time: seq<Component>)
    requires units.weight == map['H' := 3600, 'M' := 60, 'S' := 1] && Decimal(units)
    requires AllDigits(h) && h != [] && AllDigits(m) && m != [] && AllDigits(s) && s != []
    ensures time != [] && Fits(time, units) && Sum(time, units) == Value(h) * 3600 + Value(m) * 60 + Value(s)
    ensures Text(time) == h + ['H'] + (m + ['M']) + (s + ['S'])
  {
    var first := [] + [Component(h, 'H')];
    var second := first + [Component(m, 'M')];
    time := second + [Component(s, 'S')];
    OneMore([], h, 'H', units);
    assert [] + (h + ['H']) == h + ['H'];
    OneMore(first, m, 'M', units);
    OneMore(second, s, 'S', units);
  }

  lemma Unpadded(date: seq<Component>, time: seq<Component>)
    ensures [] + DurationText(date, time) + [] == DurationText(date, time)
  {
  }

  lemma OneMore(parts: seq<Component>, num: string, unit: char, units: Units)
    requires unit in units.weight && Decimal(units) && Fits(parts, units) && AllDigits(num) && num != []
    ensures
      var more := parts + [Component(num, unit)];
      && Fits(more, units) && Sum(more, units) == Sum(parts, units) + Value(num) * units.weight[unit]
      && Text(more) == Text(parts) + (num + [unit])
  {
    DigitsRead(num);
    TimesIs(Value(num), units.weight[unit]);
    TextMore(parts, num, unit);
    var more := parts + [Component(num, unit)];
    assert more[..|parts|] == parts;
  }

  lemma TextMore(parts: seq<Component>, num: string, unit: char)
    ensures Text(parts + [Component(num, unit)]) == Text(parts) + (num + [unit])
  {
    var more := parts + [Component(num, unit)];
    assert more[..|parts|] == parts;
    assert Text(parts) + num + [unit] == Text(parts) + (num + [unit]);
  }

  lemma DigitsRead(num: string)
    requires AllDigits(num) && num != []
    ensures AllNumeric(num) && WholeOf(num) == Some(Value(num))
  {
    IndexOfNone(num, '.');
  }

  // ----- SCORM 1.2 timespans -----

  function Split(s: string, sep: char): seq<string>
    decreases |s|
  {
    match IndexOf(s, sep)
    case None => [s]
    case Some(k) => [s[..k]] + Split(s[k + 1..], sep)
  }

  function Timespan12(s: string): Option<nat> {
    TimespanOf(Split(TrimSpace(s), ':'))
  }

  function TimespanOf(parts: seq<string>): Option<nat> {
    if |parts| != 3 || !IsTimespan(parts[0], parts[1], parts[2]) then None
    else Some(TimespanValue(parts[0], parts[1], parts[2]))
  }

  /** Hours, minutes below 60 and seconds below 60, none of them negative. */
  predicate IsTimespan(h: string, m: string, sec: string) {
    var hours, minutes, seconds := Atoi(h), Atoi(m), ParseFloat(sec);
    && hours.Some? && minutes.Some? && seconds.Some? && hours.value >= 0 && minutes.value >= 0 && minutes.value <= 59
    && seconds.value >= 0.0 && seconds.value < 60.0
  }

  function TimespanValue(h: string, m: string, sec: string): nat
    requires IsTimespan(h, m, sec)
  {
    Atoi(h).value * 3600 + Atoi(m).value * 60 + ParseFloat(sec).value.Floor
  }

  function TimespanText(h: string, m: string, sec: string): string {
    h + [':'] + (m + [':'] + sec)
  }

  /** Every such text is accepted, spaces around it or not, for the seconds it denotes... */
  lemma TimespanAccepted(a: string, h: string, m: string, sec: string, b: string)
    requires Blank(a) && Blank(b) && IsTimespan(h, m, sec)
    ensures
      var r := Timespan12(a + TimespanText(h, m, sec) + b);
      r.Some? && r.value == TimespanValue(h, m, sec)
  {
    AtoiChars(h);
    AtoiChars(m);
    FloatChars(sec);
    SplitTimespan(h, m, sec);
    TrimPadded(a, TimespanText(h, m, sec), b);
  }

  /** ...and nothing else is. */
  lemma AcceptedIsTimespan(s: string) returns (a: string, h: string, m: string, sec: string, b: string)
    requires Timespan12(s).Some?
    ensures Blank(a) && Blank(b) && s == a + TimespanText(h, m, sec) + b
    ensures IsTimespan(h, m, sec) && Timespan12(s).value == TimespanValue(h, m, sec)
  {
    a, b := TrimmedIs(s);
    var t := TrimSpace(s);
    h, m, sec := SplitInThree(t, ':');
  }

  lemma SplitInThree(t: string, sep: char) returns (x: string, y: string, z: string)
    requires |Split(t, sep)| == 3
    ensures t == x + [sep] + (y + [sep] + z) && Split(t, sep) == [x, y, z]
  {
    var rest, last;
    x, rest := SplitFirst(t, sep);
    y, last := SplitFirst(rest, sep);
    z := last;
    SplitOnly(last, sep);
  }

  lemma SplitFirst(t: string, sep: char) returns (x: string, rest: string)
    requires |Split(t, sep)| > 1
    ensures t == x + [sep] + rest && Split(t, sep) == [x] + Split(rest, sep)
  {
    var k := IndexOf(t, sep).value;
    x, rest := t[..k], t[k + 1..];
  }

  lemma SplitOnly(t: string, sep: char)
    requires |Split(t, sep)| == 1
    ensures Split(t, sep) == [t]
  {
  }

  /** Hours and minutes in digits, the minutes below 60, and decimal seconds below 60, read as what they denote. */
  lemma TimespanReads(h: string, m: string, seconds: string)
    requires AllDigits(h) && h != [] && AllDigits(m) && m != [] && Value(m) <= 59
    requires ParseFloat(seconds).Some? && 0.0 <= ParseFloat(seconds).value < 60.0
    ensures
      var r := Timespan12(TimespanText(h, m, seconds));
      r.Some? && r.value == Value(h) * 3600 + Value(m) * 60 + ParseFloat(seconds).value.Floor
  {
    AtoiDigits(h);
    AtoiDigits(m);
    TimespanTrimmed(h, m, seconds);
  }

  /**
   * So HH:MM:SS and HH:MM:SS.ss, each field in any digits, are accepted exactly
   * when minutes and seconds are below 60, and then read as the hours, minutes
   * and whole seconds written.
   */
  lemma WrittenTimespanReads(h: string, m: string, s: string, fraction: string)
    requires AllDigits(h) && h != [] && AllDigits(m) && m != [] && AllDigits(s) && s != [] && AllDigits(fraction)
    ensures
      var r := Timespan12(TimespanText(h, m, s));
      && (r.Some? <==> Value(m) <= 59 && Value(s) <= 59)
      && (r.Some? ==> r.value == Value(h) * 3600 + Value(m) * 60 + Value(s))
    ensures
      var r := Timespan12(TimespanText(h, m, s + ['.'] + fraction));
      && (r.Some? <==> Value(m) <= 59 && Value(s) <= 59)
      && (r.Some? ==> r.value == Value(h) * 3600 + Value(m) * 60 + Value(s))
  {
    SecondsRead(s, fraction);
    TimespanFields(h, m, s);
    TimespanFields(h, m, s + ['.'] + fraction);
    if Value(m) <= 59 && Value(s) <= 59 {
      TimespanReads(h, m, s);
      TimespanReads(h, m, s + ['.'] + fraction);
    }
  }

  /** What is accepted of three such fields depends on the two bounds alone. */
  lemma TimespanFields(h: string, m: string, seconds: string)
    requires AllDigits(h) && h != [] && AllDigits(m) && m != [] && ParseFloat(seconds).Some?
    requires ParseFloat(seconds).value >= 0.0
    ensures Timespan12(TimespanText(h, m, seconds)).Some? <==> Value(m) <= 59 && ParseFloat(seconds).value < 60.0
  {
    TimespanTrimmed(h, m, seconds);
    FieldBounds(h, m, seconds);
  }

  lemma FieldBounds(h: string, m: string, seconds: string)
    requires AllDigits(h) && h != [] && AllDigits(m) && m != [] && ParseFloat(seconds).Some?
    requires ParseFloat(seconds).value >= 0.0
    ensures IsTimespan(h, m, seconds) <==> Value(m) <= 59 && ParseFloat(seconds).value < 60.0
  {
    AtoiDigits(h);
    AtoiDigits(m);
  }

  lemma TimespanTrimmed(h: string, m: string, seconds: string)
    requires AllDigits(h) && h != [] && AllDigits(m) && m != [] && ParseFloat(seconds).Some?
    ensures Timespan12(TimespanText(h, m, seconds)) == TimespanOf([h, m, seconds])
  {
    AtoiDigits(h);
    AtoiDigits(m);
    FloatChars(seconds);
    SplitTimespan(h, m, seconds);
    BareTimespan(h, m, seconds);
  }

  lemma BareTimespan(h: string, m: string, seconds: string)
    requires h != [] && !IsSpace(h[0]) && seconds != [] && !IsSpace(seconds[|seconds| - 1])
    ensures TrimSpace(TimespanText(h, m, seconds)) == TimespanText(h, m, seconds)
  {
  }

  lemma FloatChars(s: string)
    requires ParseFloat(s).Some?
    ensures s != [] && ':' !in s && !IsSpace(s[|s| - 1])
  {
    var unsigned := if s[0] in "+-" then s[1..] else s;
    UnsignedChars(unsigned);
    assert s[0] in "+-" ==> s == [s[0]] + unsigned;
  }

  lemma UnsignedChars(s: string)
    requires ParseUnsigned(s).Some?
    ensures s != [] && AllNumeric(s)
  {
  }

  lemma AtoiChars(s: string)
    requires Atoi(s).Some?
    ensures s != [] && ':' !in s && !IsSpace(s[0])
  {
    var digits := if s[0] in "+-" then s[1..] else s;
    assert s[0] in "+-" ==> s == [s[0]] + digits;
  }

  lemma AtoiDigits(s: string)
    requires AllDigits(s) && s != []
    ensures Atoi(s) == Some(Value(s)) && ':' !in s && !IsSpace(s[0])
  {
  }

  lemma SplitTimespan(h: string, m: string, sec: string)
    requires ':' !in h && ':' !in m && ':' !in sec
    ensures Split(TimespanText(h, m, sec), ':') == [h, m, sec]
  {
    SplitAt(h, ':', m + [':'] + sec);
    SplitAt(m, ':', sec);
    SplitNone(sec, ':');
  }

  lemma SplitNone(s: string, sep: char)
    requires sep !in s
    ensures Split(s, sep) == [s]
  {
    IndexOfNone(s, sep);
  }

  lemma SplitAt(a: string, sep: char, b: string)
    requires sep !in a
    ensures Split(a + [sep] + b, sep) == [a] + Split(b, sep)
  {
    IndexOfFirst(a, sep, b);
    assert (a + [sep] + b)[..|a|] == a;
    assert (a + [sep] + b)[|a| + 1..] == b;
  }

  /** Digits, with a point and more digits after them or not, are such a number, whose floor the former denote. */
  lemma SecondsRead(s: string, fraction: string)
    requires AllDigits(s) && s != [] && AllDigits(fraction)
    ensures ParseFloat(s) == Some(Value(s) as real)
    ensures ParseFloat(s + ['.'] + fraction).Some? && ParseFloat(s + ['.'] + fraction).value.Floor == Value(s)
  {
    IndexOfNone(s, '.');
    var seconds := s + ['.'] + fraction;
    IndexOfFirst(s, '.', fraction);
    assert seconds[..|s|] == s && seconds[|s| + 1..] == fraction;
  }
}
