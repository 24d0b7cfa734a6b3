/** The fixed-point display of battery voltage and temperature (core.cpp, Battery.cpp): a
    decimal printer, undone by a reader. */
module Display {
  import opened Common

  // ---- Printing ----

  function Digit(n: nat): char
    requires n < 10
  {
    '0' + n as char
  }

  function Digits(n: nat): string {
    if n < 10 then [Digit(n)] else Digits(n / 10) + [Digit(n % 10)]
  }

  /** std::to_string. */
  function ToString(n: int): string {
    if n < 0 then "-" + Digits(-n) else Digits(n)
  }

  /** Subtraction of size_t values, which wraps around below zero. */
  const SIZE_MODULUS: nat := 0x1_0000_0000

  function SizeMinus(length: nat, k: nat): nat
    requires k < SIZE_MODULUS
  {
    if length >= k then length - k else SIZE_MODULUS + length - k
  }

  /** Puts a point `places` characters before the end and appends a unit. None when
      std::string::insert throws because the position lies past the end. */
  function Shown(n: int, places: nat, unit: string): Option<string>
    requires places < SIZE_MODULUS
  {
    var text := ToString(n);
    var pos := SizeMinus(|text|, places);
    if pos > |text| then None else Some(text[..pos] + "." + text[pos..] + unit)
  }

  /** The text that battery_voltage_monitor displays for a voltage in hundredths. */
  method FormatVoltage(batteryVoltage: int) returns (shown: Option<string>)
    ensures shown == None <==> 0 <= batteryVoltage <= 9
    ensures shown.Some? && Reading(shown.value) == Some(batteryVoltage as real / 100.0)
            <==> batteryVoltage <= -10 || 10 <= batteryVoltage
    ensures shown == Shown(batteryVoltage, 2, " V")
    ensures forall a, b | WritesOut(a, b, batteryVoltage, 2) ::
              shown == Some(Sign(batteryVoltage) + a + "." + b + " V")
  {
    VoltageRoundTrip(batteryVoltage);
    ShownWritesOut(batteryVoltage, 2, " V");
    var text := ToString(batteryVoltage);
    ShortTexts(batteryVoltage);
    var pos := SizeMinus(|text|, 2);
    if pos > |text| {
      return None;
    }
    text := text[..pos] + "." + text[pos..];
    text := text + " V";
    return Some(text);
  }

  /** The text that battery_temp_monitor displays for a temperature in tenths. */
  method FormatTemperature(batteryTemp: int) returns (shown: Option<string>)
    ensures shown.Some? && Reading(shown.value) == Some(batteryTemp as real / 10.0)
    ensures shown == Shown(batteryTemp, 1, DEGREES)
    ensures forall a, b | WritesOut(a, b, batteryTemp, 1) ::
              shown == Some(Sign(batteryTemp) + a + "." + b + DEGREES)
  {
    ShownWritesOut(batteryTemp, 1, DEGREES);
    var text := ToString(batteryTemp);
    ShortTexts(batteryTemp);
    var pos := SizeMinus(|text|, 1);
    if pos > |text| {
      return None;
    }
    text := text[..pos] + "." + text[pos..];
    text := text + DEGREES;
    TemperatureRoundTrip(batteryTemp);
    return Some(text);
  }

  const DEGREES: string := " \U{00BA}C"

  // ---- Reading ----

  predicate IsDigit(c: char) {
    '0' <= c <= '9'
  }

  predicate AllDigits(s: string) {
    forall i | 0 <= i < |s| :: IsDigit(s[i])
  }

  /** The number that the first n digits of a text make. */
  function NumberOf(s: string, n: nat): nat
    requires n <= |s| && AllDigits(s)
  {
    if n == 0 then 0 else NumberOf(s, n - 1) * 10 + (s[n - 1] - '0') as nat
  }

  function Number(s: string): nat
    requires AllDigits(s)
  {
    NumberOf(s, |s|)
  }

  /** Index of the first c from the i-th character on, or the length. */
  function FindFrom(s: string, c: char, i: nat): (k: nat)
    requires i <= |s|
    ensures i <= k <= |s| && (k < |s| ==> s[k] == c)
    ensures forall j | i <= j < k :: s[j] != c
    decreases |s| - i
  {
    if i == |s| || s[i] == c then i else FindFrom(s, c, i + 1)
  }

  /** Index of the first c, or the length. */
  function Find(s: string, c: char): (k: nat)
    ensures k <= |s| && (k < |s| ==> s[k] == c)
    ensures forall j | 0 <= j < k :: s[j] != c
  {
    FindFrom(s, c, 0)
  }

  /** A number as it is written: mantissa / 10^places. */
  datatype Decimal = Decimal(mantissa: int, places: nat)

  function Value(d: Decimal): real {
    Scaled(d.mantissa as real, d.places)
  }

  /** x with its point moved to the left. */
  function Scaled(x: real, places: nat): real {
    if places == 0 then x else Scaled(x, places - 1) / 10.0
  }

  /** The number a reader takes from a text. */
  function Reading(s: string): Option<real> {
    match Read(s)
    case None => None
    case Some(d) => Some(Value(d))
  }

  /** What a reader looks for: an optional minus sign, digits with a point among or before
      them, a space, and a unit that is not looked at. */
  function Read(s: string): Option<Decimal> {
    if s != "" && s[0] == '-' then
      match ReadUnsigned(s[1..])
      case None => None
      case Some(d) => Some(Decimal(-d.mantissa, d.places))
    else ReadUnsigned(s)
  }

  function ReadUnsigned(s: string): Option<Decimal> {
    var i := Find(s, '.');
    if i == |s| then None else ReadPlaces(s[..i], s[i + 1..])
  }

  function ReadPlaces(whole: string, rest: string): Option<Decimal> {
    var places := Find(rest, ' ');
    if places == |rest| || places == 0 then None else ReadDigits(whole + rest[..places], places)
  }

  function ReadDigits(digits: string, places: nat): Option<Decimal> {
    if AllDigits(digits) then Some(Decimal(Number(digits), places)) else None
  }

  function PowReal(k: nat): (p: real)
    ensures p > 0.0
  {
    if k == 0 then 1.0 else 10.0 * PowReal(k - 1)
  }

  // ---- Reading undoes printing ----

  lemma {:induction false} DigitsRead(n: nat)
    ensures AllDigits(Digits(n)) && Number(Digits(n)) == n
    ensures |Digits(n)| >= 1 && (|Digits(n)| >= 2 <==> n >= 10)
  {
    if n < 10 {
      assert NumberOf([Digit(n)], 0) == 0;
    } else {
      var front := Digits(n / 10);
      DigitsRead(n / 10);
      NumberOfFront(front, [Digit(n % 10)], |front|);
    }
  }

  lemma {:induction false} NumberOfFront(a: string, b: string, n: nat)
    requires AllDigits(a) && AllDigits(a + b) && n <= |a|
    ensures NumberOf(a + b, n) == NumberOf(a, n)
  {
    if n == 0 {
    } else {
      NumberOfFront(a, b, n - 1);
    }
  }

  /** Decimal digits as one writes them. */
  predicate Canonical(d: string) {
    AllDigits(d) && d != "" && (|d| > 1 ==> d[0] != '0')
  }

  /** Printing starts with 0 only for zero itself. */
  lemma {:induction false} NoLeadingZero(n: nat)
    ensures |Digits(n)| >= 1 && (Digits(n)[0] == '0' <==> n == 0)
    ensures Canonical(Digits(n))
  {
    DigitsRead(n);
    if n >= 10 {
      NoLeadingZero(n / 10);
      assert Digits(n)[0] == Digits(n / 10)[0];
    }
  }

  /** So printing is the only way to write a number. */
  lemma {:induction false} DigitsAreUnique(d: string)
    requires Canonical(d)
    ensures d == Digits(Number(d))
    decreases |d|
  {
    var k, last := |d| - 1, d[|d| - 1];
    var front, low := d[..k], (last - '0') as nat;
    assert [last] == [Digit(low)] && d == front + [last];
    if k == 0 {
      assert NumberOf(d, 0) == 0;
    } else {
      DigitsAreUnique(front);
      NumberOfFront(front, [last], k);
      NoLeadingZero(Number(front));
      assert front[0] == d[0];
      assert Number(d) == 10 * Number(front) + low;
      assert Number(d) / 10 == Number(front) && Number(d) % 10 == low;
    }
  }

  function Magnitude(n: int): nat {
    if n < 0 then -n else n
  }

  function Sign(n: int): string {
    if n < 0 then "-" else ""
  }

  /** n without its sign, with a before the point and k digits b after it. */
  predicate WritesOut(a: string, b: string, n: int, k: nat) {
    Canonical(a + b) && Number(a + b) == Magnitude(n) && |b| == k
  }

  /** The displayed text to the last character: the sign, the digits of the number without
      superfluous zeros, a point before the last k of them, and the unit. */
  lemma ShownWritesOut(n: int, k: nat, unit: string)
    requires 1 <= k < SIZE_MODULUS
    ensures forall a, b | WritesOut(a, b, n, k) :: Shown(n, k, unit) == Some(Sign(n) + a + "." + b + unit)
    ensures k <= |Digits(Magnitude(n))| ==> exists a, b :: WritesOut(a, b, n, k)
  {
    forall a, b | WritesOut(a, b, n, k)
      ensures Shown(n, k, unit) == Some(Sign(n) + a + "." + b + unit)
    {
      ShownIsWrittenOut(n, k, unit, a, b);
    }
    if k <= |Digits(Magnitude(n))| { CanBeWrittenOut(n, k); }
  }

  lemma ShownIsWrittenOut(n: int, k: nat, unit: string, a: string, b: string)
    requires 1 <= k < SIZE_MODULUS && WritesOut(a, b, n, k)
    ensures Shown(n, k, unit) == Some(Sign(n) + a + "." + b + unit)
  {
    DigitsAreUnique(a + b);
    ShownIsPointed(n, k, unit);
    PointedParts(a, b, unit);
    SignedParts(Sign(n), a, b, unit);
  }

  lemma PointedParts(a: string, b: string, unit: string)
    ensures Pointed(a + b, |b|, unit) == a + "." + b + unit
  {
    assert (a + b)[..|a|] == a && (a + b)[|a|..] == b;
  }

  lemma SignedParts(sign: string, a: string, b: string, unit: string)
    ensures sign + a + "." + b + unit == sign + (a + "." + b + unit)
    ensures sign == "" ==> sign + (a + "." + b + unit) == a + "." + b + unit
  {
  }

  lemma CanBeWrittenOut(n: int, k: nat)
    requires k <= |Digits(Magnitude(n))|
    ensures exists a, b :: WritesOut(a, b, n, k)
  {
    var d := Digits(Magnitude(n));
    var a, b := d[..|d| - k], d[|d| - k..];
    NoLeadingZero(Magnitude(n));
    DigitsRead(Magnitude(n));
    assert a + b == d;
    assert WritesOut(a, b, n, k);
  }

  lemma ShortTexts(n: int)
    ensures |ToString(n)| >= 1
    ensures |ToString(n)| >= 2 <==> !(0 <= n <= 9)
  {
    DigitsRead(if n < 0 then -n else n);
  }

  lemma FindAt(s: string, c: char, i: nat)
    requires i < |s| && s[i] == c && forall j | 0 <= j < i :: s[j] != c
    ensures Find(s, c) == i
  {
  }

  function Pointed(d: string, k: nat, unit: string): string
    requires k <= |d|
  {
    d[..|d| - k] + "." + d[|d| - k..] + unit
  }

  /** A text with a point among its digits reads as the number with that many places. */
  lemma PointedReads(d: string, k: nat, unit: string)
    requires AllDigits(d) && 1 <= k <= |d| && unit != "" && unit[0] == ' '
    ensures ReadUnsigned(Pointed(d, k, unit)) == Some(Decimal(Number(d), k))
  {
    DigitsSplit(d, |d| - k);
    PartsRead(d[..|d| - k], d[|d| - k..], unit);
  }

  lemma DigitsSplit(d: string, m: nat)
    requires AllDigits(d) && m <= |d|
    ensures AllDigits(d[..m]) && AllDigits(d[m..])
    ensures ReadDigits(d[..m] + d[m..], |d| - m) == Some(Decimal(Number(d), |d| - m))
  {
    assert d[..m] + d[m..] == d;
  }

  lemma PartsRead(a: string, b: string, unit: string)
    requires AllDigits(a) && AllDigits(b) && b != "" && unit != "" && unit[0] == ' '
    ensures ReadUnsigned(a + "." + b + unit) == ReadDigits(a + b, |b|)
  {
    assert a + "." + b + unit == a + "." + (b + unit);
    PointSplits(a, b + unit);
    UnitSplits(a, b, unit);
  }

  lemma PointSplits(a: string, rest: string)
    requires AllDigits(a)
    ensures ReadUnsigned(a + "." + rest) == ReadPlaces(a, rest)
  {
    var s := a + "." + rest;
    FindAt(s, '.', |a|);
    assert s[..|a|] == a && s[|a| + 1..] == rest;
  }

  lemma UnitSplits(whole: string, b: string, unit: string)
    requires AllDigits(b) && b != "" && unit != "" && unit[0] == ' '
    ensures ReadPlaces(whole, b + unit) == ReadDigits(whole + b, |b|)
  {
    FindAt(b + unit, ' ', |b|);
    assert (b + unit)[..|b|] == b;
  }

  lemma PointedHead(d: string, k: nat, unit: string)
    requires AllDigits(d) && k <= |d|
    ensures Pointed(d, k, unit)[0] != '-'
  {
    assert Pointed(d, k, unit)[0] == if |d| - k > 0 then d[0] else '.';
  }

  /** With enough digits the display shows them pointed, after the sign. */
  lemma ShownIsPointed(n: int, k: nat, unit: string)
    requires 1 <= k < SIZE_MODULUS && k <= |Digits(if n < 0 then -n else n)|
    ensures var body := Pointed(Digits(if n < 0 then -n else n), k, unit);
            Shown(n, k, unit) == Some(if n < 0 then "-" + body else body)
  {
    if n < 0 { SignGoesFirst("-", Digits(-n), k, unit); }
  }

  lemma SignGoesFirst(sign: string, d: string, k: nat, unit: string)
    requires k <= |d|
    ensures Pointed(sign + d, k, unit) == sign + Pointed(d, k, unit)
  {
    var m := |d| - k;
    assert (sign + d)[..|sign| + m] == sign + d[..m];
    assert (sign + d)[|sign| + m..] == d[m..];
    ConcatFromRight(sign, d[..m], ".", d[m..] + unit);
  }

  lemma ConcatFromRight(a: string, b: string, c: string, d: string)
    ensures a + b + c + d == a + (b + c + d)
  {
  }

  /** Printing n with a point before its last k places, where it has that many digits, and
      reading it gives n with k places. */
  lemma ShownReads(n: int, k: nat, unit: string)
    requires 1 <= k < SIZE_MODULUS && k <= |Digits(if n < 0 then -n else n)|
    requires unit != "" && unit[0] == ' '
    ensures Shown(n, k, unit).Some?
    ensures Read(Shown(n, k, unit).value) == Some(Decimal(n, k))
  {
    var d := Digits(if n < 0 then -n else n);
    DigitsRead(if n < 0 then -n else n);
    ShownIsPointed(n, k, unit);
    PointedReads(d, k, unit);
    PointedHead(d, k, unit);
    if n < 0 {
      assert ("-" + Pointed(d, k, unit))[1..] == Pointed(d, k, unit);
    }
  }

  /** So reading the display back gives n / 10^k. */
  lemma DisplayRoundTrip(n: int, k: nat, unit: string)
    requires 1 <= k < SIZE_MODULUS && k <= |Digits(if n < 0 then -n else n)|
    requires unit != "" && unit[0] == ' '
    ensures Shown(n, k, unit).Some?
    ensures Reading(Shown(n, k, unit).value) == Some(n as real / PowReal(k))
  {
    ShownReads(n, k, unit);
    ScaledDivides(n as real, k);
  }

  lemma {:induction false} ScaledDivides(x: real, k: nat)
    ensures Scaled(x, k) == x / PowReal(k)
  {
    if k == 0 {
    } else {
      ScaledDivides(x, k - 1);
      DivideTwice(x, PowReal(k - 1));
    }
  }

  lemma DivideTwice(x: real, p: real)
    requires p > 0.0
    ensures x / p / 10.0 == x / (10.0 * p)
  {
    var y, z := x / p / 10.0, x / (10.0 * p);
    assert y * (10.0 * p) == x / p * p == x;
    assert z * (10.0 * p) == x;
    assert (y - z) * (10.0 * p) == 0.0;
  }

  lemma TenthsAndHundredths(n: int)
    ensures Value(Decimal(n, 1)) == n as real / 10.0
    ensures Value(Decimal(n, 2)) == n as real / 100.0
  {
    assert Scaled(n as real, 2) == Scaled(n as real, 1) / 10.0;
    assert Scaled(n as real, 1) == Scaled(n as real, 0) / 10.0;
  }

  /** A temperature is shown with one place, single digits included. */
  lemma TemperatureReads(t: int)
    ensures Shown(t, 1, DEGREES).Some?
    ensures Read(Shown(t, 1, DEGREES).value) == Some(Decimal(t, 1))
  {
    DigitsRead(if t < 0 then -t else t);
    ShownReads(t, 1, DEGREES);
  }

  /** Every temperature can be read back from its display. */
  lemma TemperatureRoundTrip(t: int)
    ensures Shown(t, 1, DEGREES).Some?
    ensures Reading(Shown(t, 1, DEGREES).value) == Some(t as real / 10.0)
  {
    TemperatureReads(t);
    TenthsAndHundredths(t);
  }

  /** A voltage is shown with two places when it has two digits; from 0 to 9 the display
      code throws, and from -9 to -1 it puts the point before the sign. */
  lemma VoltageReads(v: int)
    ensures Shown(v, 2, " V") == None <==> 0 <= v <= 9
    ensures v <= -10 || 10 <= v ==> Read(Shown(v, 2, " V").value) == Some(Decimal(v, 2))
    ensures -9 <= v <= -1 ==> Read(Shown(v, 2, " V").value) == None
  {
    DigitsRead(if v < 0 then -v else v);
    ShortTexts(v);
    if v <= -10 || 10 <= v {
      ShownReads(v, 2, " V");
    } else if v < 0 {
      SmallNegativeIsGarbled(-v);
    }
  }

  /** So it can be read back exactly when it has two digits. */
  lemma VoltageRoundTrip(v: int)
    ensures Shown(v, 2, " V") == None <==> 0 <= v <= 9
    ensures Shown(v, 2, " V").Some? && Reading(Shown(v, 2, " V").value) == Some(v as real / 100.0)
            <==> v <= -10 || 10 <= v
    ensures -9 <= v <= -1 ==> Reading(Shown(v, 2, " V").value) == None
  {
    VoltageReads(v);
    TenthsAndHundredths(v);
  }

  lemma SmallNegativeIsGarbled(n: int)
    requires 1 <= n <= 9
    ensures Shown(-n, 2, " V") == Some(['.', '-', Digit(n), ' ', 'V'])
    ensures Read(['.', '-', Digit(n), ' ', 'V']) == None
  {
    var s := ['.', '-', Digit(n), ' ', 'V'];
    assert ToString(-n) == ['-', Digit(n)];
    assert ['-', Digit(n)][..0] + "." + ['-', Digit(n)][0..] + " V" == s;
    FindAt(s, '.', 0);
    assert s[1..] == ['-', Digit(n), ' ', 'V'];
    FindAt(s[1..], ' ', 2);
    assert !IsDigit((s[..0] + s[1..][..2])[0]);
  }

  // ---- The voltage as read from the battery ----

  /** What the file of microvolts gave: nothing to open, no number in it, or a number. */
  datatype VoltageFile = Missing | Unreadable | Microvolts(reading: int)

  function Truncated(y: real): int {
    if y >= 0.0 then y.Floor else -((-y).Floor)
  }

  /** An admissible double product of a reading and 0.0001. The double next to 0.0001 is off
      by less than 2^-54 of its value, so a product that is whole comes out exactly. */
  predicate NearProduct(y: real, reading: int) {
    && -0.000_001 <= 10_000.0 * y - reading as real <= 0.000_001
    && (reading % 10_000 == 0 ==> 10_000.0 * y == reading as real)
  }

  /** C division, truncating toward zero. */
  function DividedTowardZero(n: int, d: int): int
    requires d > 0
  {
    if n >= 0 then n / d else -((-n) / d)
  }

  method GetBatteryVoltage(file: VoltageFile, product: real) returns (voltage: int)
    requires NearProduct(product, if file.Microvolts? then file.reading else -1)
    ensures voltage == match file
                       case Missing => -1
                       case Unreadable => 0
                       case Microvolts(r) => DividedTowardZero(r, 10_000)
  {
    voltage := -1;
    if file.Missing? {
      return -1;
    }
    if file.Microvolts? {
      voltage := file.reading;
    }
    TruncatedProduct(product, voltage);
    voltage := Truncated(product);
  }

  lemma TruncatedProduct(y: real, r: int)
    requires NearProduct(y, r)
    ensures Truncated(y) == DividedTowardZero(r, 10_000)
  {
    if r >= 0 {
      FloorOfProduct(y, r / 10_000, r % 10_000);
    } else {
      FloorOfProduct(-y, (-r) / 10_000, (-r) % 10_000);
    }
  }

  lemma FloorOfProduct(y: real, k: int, m: int)
    requires 0 <= k && 0 <= m < 10_000
    requires -0.000_001 <= 10_000.0 * y - (10_000 * k + m) as real <= 0.000_001
    requires m == 0 ==> 10_000.0 * y == (10_000 * k) as real
    ensures y >= 0.0 && y.Floor == k
  {
    assert k as real <= y < (k + 1) as real;
  }

  /** What is shown for a reading: it reads back as a value within 0.01 V of the measured
      one, and no further from zero, exactly when the reading reaches 0.1 V. */
  lemma VoltageDisplayIsFaithful(reading: int)
    ensures var shown := Shown(DividedTowardZero(reading, 10_000), 2, " V");
            var volts := reading as real / 1_000_000.0;
            (shown.Some? && Reading(shown.value).Some?
             && var x := Reading(shown.value).value;
                if reading >= 0 then x <= volts < x + 0.01 else x - 0.01 < volts <= x)
            <==> reading <= -100_000 || 100_000 <= reading
  {
    var v := DividedTowardZero(reading, 10_000);
    VoltageRoundTrip(v);
  }

  /** A missing file is displayed as a text no number can be read from, and an unreadable
      one makes the display code throw. */
  lemma VoltageFailuresAreNotShown()
    ensures Shown(-1, 2, " V") == Some(".-1 V") && Reading(".-1 V") == None
    ensures Shown(0, 2, " V") == None
  {
    SmallNegativeIsGarbled(1);
    VoltageRoundTrip(0);
    assert Digit(1) == '1' && ".-1 V" == ['.', '-', Digit(1), ' ', 'V'];
  }
}
