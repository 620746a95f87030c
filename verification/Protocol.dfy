/** One sensor reading and its printed form (Protocol/Protocol.hpp). Floats are
    carried as their IEEE 754 single-precision bit patterns. */
module Protocol {
  import opened Words
  import opened Text

  const NEW_SENSOR_READING_TAG := "SRD"
  const OLD_SENSOR_READING_TAG := "SRH"
  const SENSOR_READ_PERIOD: nat := 7000
  const BUFFER_SIZE: nat := 128

  datatype SensorData = SensorData(timestamp: Word, temperature: Word, humidity: Word, co2: Word)

  /** `snprintf` into `size` bytes keeps at most `size - 1` characters. */
  function Snprintf(size: nat, text: string): string
    requires size > 0
  {
    text[..Min(|text|, size - 1)]
  }

  // ---------------------------------------------------------------- numbers

  function Pow2(e: nat): (p: nat)
    ensures p >= 1
  {
    if e == 0 then 1 else 2 * Pow2(e - 1)
  }

  function Pow10(e: nat): (p: nat)
    ensures p >= 1
  {
    if e == 0 then 1 else 10 * Pow10(e - 1)
  }

  predicate IsDigit(c: char) {
    '0' <= c <= '9'
  }

  predicate AllDigits(s: string) {
    forall i | 0 <= i < |s| :: IsDigit(s[i])
  }

  function DigitChar(d: nat): char
    requires d < 10
  {
    '0' + d as char
  }

  /** `%u` */
  function Digits(n: nat): (s: string)
    ensures s != []
    ensures AllDigits(s)
  {
    if n < 10 then [DigitChar(n)] else Digits(n / 10) + [DigitChar(n % 10)]
  }

  function DigitsValue(s: string): nat
    requires AllDigits(s)
  {
    if s == [] then 0
    else
      assert IsDigit(s[|s| - 1]);
      10 * DigitsValue(Init(s)) + (Last(s) as int - '0' as int)
  }

  lemma {:induction false} DigitsRoundTrip(n: nat)
    ensures DigitsValue(Digits(n)) == n
  {
    if n >= 10 {
      DigitsRoundTrip(n / 10);
      assert Init(Digits(n)) == Digits(n / 10);
    } else {
      assert Init(Digits(n)) == [];
    }
  }

  lemma {:induction false} NoLeadingZero(n: nat)
    ensures |Digits(n)| > 1 ==> Digits(n)[0] != '0'
  {
    if n >= 10 {
      NoLeadingZero(n / 10);
      assert Digits(n)[0] == Digits(n / 10)[0];
    }
  }

  lemma {:induction false} DigitsLength(n: nat, k: nat)
    requires k >= 1
    ensures |Digits(n)| <= k <==> n < Pow10(k)
  {
    if n >= 10 {
      if k == 1 {
        assert Pow10(1) == 10 * Pow10(0);
      } else {
        DigitsLength(n / 10, k - 1);
      }
    } else {
      assert Pow10(k) == 10 * Pow10(k - 1);
    }
  }

  /** A decimal with two places, as `%.2f` shows it; zero keeps its sign. */
  datatype Decimal = Decimal(negative: bool, hundredths: nat)

  /** The nearest integer to `a / b`, ties to even. */
  function RoundHalfEven(a: nat, b: nat): nat
    requires b > 0
  {
    var q, r := a / b, a % b;
    if 2 * r > b || (2 * r == b && q % 2 == 1) then q + 1 else q
  }

  predicate Finite(bits: Word) {
    bits / 0x80_0000 % 256 != 255
  }

  /** The decimal `%.2f` prints for a finite float: the exact binary value
      rounded once to hundredths. */
  function Rounded(bits: Word): Decimal
    requires Finite(bits)
  {
    var exponent := bits / 0x80_0000 % 256;
    var fraction := bits % 0x80_0000;
    var significand: nat := if exponent == 0 then fraction else fraction + 0x80_0000;
    var scale: nat := if exponent == 0 then 1 else exponent;
    Decimal(bits >= 0x8000_0000,
            if scale >= 150 then significand * 100 * Pow2(scale - 150)
            else RoundHalfEven(significand * 100, Pow2(150 - scale)))
  }

  function Fixed2(d: Decimal): string {
    (if d.negative then "-" else "") + Digits(d.hundredths / 100) + "." +
    [DigitChar(d.hundredths / 10 % 10), DigitChar(d.hundredths % 10)]
  }

  /** `%.2f`, not-a-number and the infinities included. */
  function ShowFloat(bits: Word): string {
    if Finite(bits) then Fixed2(Rounded(bits))
    else (if bits >= 0x8000_0000 then "-" else "") + (if bits % 0x80_0000 == 0 then "inf" else "nan")
  }

  lemma {:induction false} Pow2Monotone(a: nat, b: nat)
    requires a <= b
    ensures Pow2(a) <= Pow2(b)
  {
    if a < b {
      Pow2Monotone(a, b - 1);
    }
  }

  lemma {:induction false} Pow2Sum(a: nat, b: nat)
    ensures Pow2(a + b) == Pow2(a) * Pow2(b)
  {
    if a > 0 {
      Pow2Sum(a - 1, b);
      assert Pow2(a + b) == 2 * Pow2(a - 1 + b);
      assert 2 * (Pow2(a - 1) * Pow2(b)) == (2 * Pow2(a - 1)) * Pow2(b);
    }
  }

  lemma {:induction false} Pow10Sum(a: nat, b: nat)
    ensures Pow10(a + b) == Pow10(a) * Pow10(b)
  {
    if a > 0 {
      Pow10Sum(a - 1, b);
      assert Pow10(a + b) == 10 * Pow10(a - 1 + b);
      assert 10 * (Pow10(a - 1) * Pow10(b)) == (10 * Pow10(a - 1)) * Pow10(b);
    }
  }

  lemma Pow2Of52()
    ensures Pow2(52) == 0x10_0000_0000_0000
  {
    assert Pow2(13) == 8192;
    Pow2Sum(13, 13);
    Pow2Sum(26, 26);
  }

  lemma Pow2Of104()
    ensures Pow2(104) == 0x10_0000_0000_0000 * 0x10_0000_0000_0000
  {
    Pow2Of52();
    Pow2Sum(52, 52);
  }

  lemma Pow10Of10()
    ensures Pow10(10) == 10_000_000_000
  {
    var p5 := Pow10(5);
    assert p5 == 100_000;
    Pow10Sum(5, 5);
  }

  lemma Pow10Of39()
    ensures Pow10(39) == 1_000_000_000_000_000_000_000_000_000_000_000_000_000
  {
    var p3, p13 := Pow10(3), Pow10(13);
    assert p3 == 1000;
    Pow10Of10();
    Pow10Sum(10, 3); Pow10Sum(13, 13); Pow10Sum(26, 13);
    assert p13 == 10_000_000_000_000;
  }

  /** No finite float prints more than 39 integer digits. */
  lemma RoundedBound(bits: Word)
    requires Finite(bits)
    ensures Rounded(bits).hundredths / 100 < Pow10(39)
  {
    Pow2Of104();
    Pow10Of39();
    var exponent := bits / 0x80_0000 % 256;
    var fraction := bits % 0x80_0000;
    var significand: nat := if exponent == 0 then fraction else fraction + 0x80_0000;
    var scale: nat := if exponent == 0 then 1 else exponent;
    assert significand < 0x100_0000;
    if scale >= 150 {
      Pow2Monotone(scale - 150, 104);
      ProductBound(significand * 100, 0x100_0000 * 100, Pow2(scale - 150), Pow2(104));
    } else {
      RoundHalfEvenBound(significand * 100, Pow2(150 - scale));
    }
  }

  lemma ProductBound(a: nat, b: nat, c: nat, d: nat)
    requires a <= b && c <= d
    ensures a * c <= b * d
  {
    assert a * c <= b * c;
    assert b * c <= b * d;
  }

  lemma RoundHalfEvenBound(a: nat, b: nat)
    requires b > 0
    ensures RoundHalfEven(a, b) <= a + 1
  {
    QuotientBound(a, b, a / b, a % b);
  }

  lemma QuotientBound(a: nat, b: nat, q: nat, r: nat)
    requires b > 0 && a == b * q + r
    ensures q <= a
  {
    assert b * q >= 1 * q;
  }

  predicate FloatChar(c: char) {
    IsDigit(c) || c == '.' || c == '-' || c in "infa"
  }

  lemma Fixed2Shape(d: Decimal)
    ensures |Fixed2(d)| == (if d.negative then 1 else 0) + |Digits(d.hundredths / 100)| + 3
    ensures forall i | 0 <= i < |Fixed2(d)| :: FloatChar(Fixed2(d)[i])
  {
    var s := Digits(d.hundredths / 100);
    assert forall i | 0 <= i < |s| :: IsDigit(s[i]);
  }

  lemma ShowFloatShape(bits: Word)
    ensures 3 <= |ShowFloat(bits)| <= 43
    ensures forall i | 0 <= i < |ShowFloat(bits)| :: FloatChar(ShowFloat(bits)[i])
  {
    if Finite(bits) {
      RoundedBound(bits);
      DigitsLength(Rounded(bits).hundredths / 100, 39);
      Fixed2Shape(Rounded(bits));
    }
  }

  lemma TwoPlaces(h: nat, g: nat)
    requires h / 100 == g / 100 && h / 10 % 10 == g / 10 % 10 && h % 10 == g % 10
    ensures h == g
  {
    assert h / 10 == h / 100 * 10 + h / 10 % 10;
    assert g / 10 == g / 100 * 10 + g / 10 % 10;
  }

  lemma Fixed2Parts(d: Decimal)
    ensures var s, k := Fixed2(d), if d.negative then 1 else 0;
            && |s| >= k + 4
            && (s[0] == '-' <==> d.negative)
            && s[k..|s| - 3] == Digits(d.hundredths / 100) && s[|s| - 3] == '.'
            && s[|s| - 2] == DigitChar(d.hundredths / 10 % 10)
            && s[|s| - 1] == DigitChar(d.hundredths % 10)
  {
  }

  /** Different decimals print differently. */
  lemma Fixed2Injective(d: Decimal, e: Decimal)
    requires Fixed2(d) == Fixed2(e)
    ensures d == e
  {
    Fixed2Parts(d);
    Fixed2Parts(e);
    DigitsRoundTrip(d.hundredths / 100);
    DigitsRoundTrip(e.hundredths / 100);
    TwoPlaces(d.hundredths, e.hundredths);
  }

  /** `h` hundredths are the decimal nearest to a finite float, the even one of two
      equally near. The float's magnitude is `significand * 2^(scale - 150)`
      (section 3.4 of IEEE 754-2008). */
  predicate Nearest(h: nat, bits: Word) {
    var exponent, fraction := bits / 0x80_0000 % 256, bits % 0x80_0000;
    var significand: nat := if exponent == 0 then fraction else 0x80_0000 + fraction;
    var scale: nat := if exponent == 0 then 1 else exponent;
    if scale >= 150 then h == 100 * significand * Pow2(scale - 150)
    else
      var unit: int := Pow2(150 - scale);
      var error := 2 * (h * unit - 100 * significand);
      -unit <= error <= unit && (error == unit || error == -unit ==> h % 2 == 0)
  }

  lemma RoundHalfEvenNearest(a: nat, b: int)
    requires b > 0
    ensures var h := RoundHalfEven(a, b);
            var error := 2 * (h * b - a);
            -b <= error <= b && (error == b || error == -b ==> h % 2 == 0)
  {
    var q, r := a / b, a % b;
    assert a == q * b + r;
    assert (q + 1) * b == q * b + b;
  }

  lemma RoundedNearest(bits: Word)
    requires Finite(bits)
    ensures Nearest(Rounded(bits).hundredths, bits)
  {
    var exponent, fraction := bits / 0x80_0000 % 256, bits % 0x80_0000;
    var significand: nat := if exponent == 0 then fraction else 0x80_0000 + fraction;
    var scale: nat := if exponent == 0 then 1 else exponent;
    if scale < 150 {
      RoundHalfEvenNearest(significand * 100, Pow2(150 - scale));
    }
  }

  /** There is one nearest decimal. */
  lemma NearestOnce(h: nat, g: nat, bits: Word)
    requires Nearest(h, bits) && Nearest(g, bits)
    ensures h == g
  {
    var exponent, fraction := bits / 0x80_0000 % 256, bits % 0x80_0000;
    var significand: nat := if exponent == 0 then fraction else 0x80_0000 + fraction;
    var scale: nat := if exponent == 0 then 1 else exponent;
    if scale < 150 {
      OneNearest(h, g, 100 * significand, Pow2(150 - scale));
    }
  }

  lemma OneNearest(h: nat, g: nat, a: nat, b: int)
    requires b > 0 && -b <= 2 * (h * b - a) <= b && -b <= 2 * (g * b - a) <= b
    requires 2 * (h * b - a) == b || 2 * (h * b - a) == -b ==> h % 2 == 0
    requires 2 * (g * b - a) == b || 2 * (g * b - a) == -b ==> g % 2 == 0
    ensures h == g
  {
    if h < g {
      Apart(h, g, b);
    } else if g < h {
      Apart(g, h, b);
    }
  }

  lemma Apart(h: nat, g: nat, b: nat)
    requires h < g && b > 0
    ensures g * b == h * b + b || g * b >= h * b + 2 * b
    ensures g * b == h * b + b ==> g == h + 1
  {
    var d := g - h;
    assert g * b == h * b + d * b;
    if d >= 2 {
      assert d * b >= 2 * b;
    }
  }

  /** The digits of a printed decimal, read as numbers. */
  lemma Fixed2Reads(d: Decimal)
    ensures var s, k := Fixed2(d), if d.negative then 1 else 0;
            && |s| >= k + 4 && (s[0] == '-' <==> d.negative) && s[|s| - 3] == '.'
            && AllDigits(s[k..|s| - 3]) && AllDigits(s[|s| - 2..]) && (|s| > k + 4 ==> s[k] != '0')
            && 100 * DigitsValue(s[k..|s| - 3]) + DigitsValue(s[|s| - 2..]) == d.hundredths
  {
    var s, k := Fixed2(d), if d.negative then 1 else 0;
    var whole, tenths, ones := d.hundredths / 100, d.hundredths / 10 % 10, d.hundredths % 10;
    DigitsRoundTrip(whole);
    NoLeadingZero(whole);
    TwoDigits(tenths, ones);
    Hundredths(d.hundredths);
    Fixed2Parts(d);
    assert s[|s| - 2..] == [s[|s| - 2], s[|s| - 1]];
  }

  /** What `%.2f` prints: for a finite float a minus sign exactly when the sign bit is
      set, then the nearest decimal, two digits of it after the point. */
  lemma PrintedNearest(bits: Word)
    ensures var s, k := ShowFloat(bits), if bits >= 0x8000_0000 then 1 else 0;
            if bits / 0x80_0000 % 256 == 255
            then s == (if k == 1 then "-" else "") + (if bits % 0x80_0000 == 0 then "inf" else "nan")
            else
              && |s| >= k + 4 && (s[0] == '-' <==> k == 1) && s[|s| - 3] == '.'
              && AllDigits(s[k..|s| - 3]) && AllDigits(s[|s| - 2..]) && (|s| > k + 4 ==> s[k] != '0')
              && Nearest(100 * DigitsValue(s[k..|s| - 3]) + DigitsValue(s[|s| - 2..]), bits)
  {
    if Finite(bits) {
      var d := ShownDecimal(bits);
      FixedNearest(ShowFloat(bits), d, bits);
    }
  }

  lemma ShownDecimal(bits: Word) returns (d: Decimal)
    requires Finite(bits)
    ensures ShowFloat(bits) == Fixed2(d) && d.negative == (bits >= 0x8000_0000) && Nearest(d.hundredths, bits)
  {
    d := Rounded(bits);
    RoundedNearest(bits);
  }

  lemma FixedNearest(s: string, d: Decimal, bits: Word)
    requires s == Fixed2(d) && d.negative == (bits >= 0x8000_0000) && Nearest(d.hundredths, bits)
    ensures var k := if bits >= 0x8000_0000 then 1 else 0;
            && |s| >= k + 4 && (s[0] == '-' <==> k == 1) && s[|s| - 3] == '.'
            && AllDigits(s[k..|s| - 3]) && AllDigits(s[|s| - 2..]) && (|s| > k + 4 ==> s[k] != '0')
            && Nearest(100 * DigitsValue(s[k..|s| - 3]) + DigitsValue(s[|s| - 2..]), bits)
  {
    Fixed2Reads(d);
  }

  lemma Hundredths(h: nat)
    ensures h == 100 * (h / 100) + (10 * (h / 10 % 10) + h % 10)
  {
    assert h / 10 == h / 100 * 10 + h / 10 % 10;
  }

  lemma TwoDigits(a: nat, b: nat)
    requires a < 10 && b < 10
    ensures AllDigits([DigitChar(a), DigitChar(b)]) && DigitsValue([DigitChar(a), DigitChar(b)]) == 10 * a + b
  {
    var s := [DigitChar(a), DigitChar(b)];
    assert Init(s) == [DigitChar(a)] && Init([DigitChar(a)]) == [];
    assert DigitsValue(Init(s)) == a;
  }

  /** 22.5 is printed as such. */
  lemma PrintedExample()
    ensures ShowFloat(0x41B4_0000) == "22.50"
  {
    RoundedExample();
    TwentyTwo();
  }

  lemma TwentyTwo()
    ensures Digits(22) == "22"
  {
    assert Digits(2) == "2";
  }

  lemma RoundedExample()
    ensures Rounded(0x41B4_0000) == Decimal(false, 2250)
  {
    Pow2Of19();
    var bits: Word := 0x41B4_0000;
    assert bits / 0x80_0000 % 256 == 131 && bits % 0x80_0000 == 0x34_0000;
    assert 0xB4_0000 * 100 == 2250 * 0x8_0000;
  }

  lemma Pow2Of19()
    ensures Pow2(19) == 0x8_0000
  {
    assert Pow2(9) == 512 && Pow2(10) == 1024;
    Pow2Sum(9, 10);
  }

  // ---------------------------------------------------------------- payload

  predicate AllFinite(r: SensorData) {
    Finite(r.temperature) && Finite(r.humidity)
  }

  function Fields(r: SensorData): (fs: seq<string>)
    ensures |fs| == 4
  {
    [Digits(r.timestamp), ShowFloat(r.temperature), ShowFloat(r.humidity), Digits(r.co2)]
  }

  /** `SensorData::ToString` */
  function ToString(r: SensorData): string {
    Snprintf(BUFFER_SIZE, Fields(r)[0] + "," + Fields(r)[1] + "," + Fields(r)[2] + "," + Fields(r)[3])
  }

  lemma FieldShapes(r: SensorData)
    ensures var fs := Fields(r);
            1 <= |fs[0]| <= 10 && 3 <= |fs[1]| <= 43 && 3 <= |fs[2]| <= 43 && 1 <= |fs[3]| <= 10
    ensures AllFree(Fields(r), ',')
  {
    Pow10Of10();
    DigitsLength(r.timestamp, 10);
    DigitsLength(r.co2, 10);
    ShowFloatShape(r.temperature);
    ShowFloatShape(r.humidity);
  }

  /** The payload is printed whole, and cutting it at commas gives back the four
      fields. */
  lemma PayloadFields(r: SensorData)
    ensures 11 <= |ToString(r)| <= 109
    ensures ToString(r) == Join(Fields(r), ',')
    ensures Split(ToString(r), ',') == Fields(r) ==
            [Digits(r.timestamp), ShowFloat(r.temperature), ShowFloat(r.humidity), Digits(r.co2)]
    ensures DigitsValue(Digits(r.timestamp)) == r.timestamp && DigitsValue(Digits(r.co2)) == r.co2
  {
    FieldShapes(r);
    DigitsRoundTrip(r.timestamp);
    DigitsRoundTrip(r.co2);
    JoinFour(Fields(r), ',');
    SplitJoinFree(Fields(r), ',');
  }

  lemma JoinFour(fs: seq<string>, c: char)
    requires |fs| == 4
    ensures Join(fs, c) == fs[0] + [c] + fs[1] + [c] + fs[2] + [c] + fs[3]
  {
    assert fs[1..][1..] == fs[2..] && fs[2..][1..] == fs[3..];
    assert Join(fs[3..], c) == fs[3];
    assert Join(fs[2..], c) == fs[2] + [c] + fs[3];
    assert Join(fs[1..], c) == fs[1] + [c] + (fs[2] + [c] + fs[3]);
  }

  predicate PayloadChar(c: char) {
    FloatChar(c) || c == ','
  }

  lemma PayloadChars(r: SensorData)
    ensures forall i | 0 <= i < |ToString(r)| :: PayloadChar(ToString(r)[i])
  {
    PayloadFields(r);
    ShowFloatShape(r.temperature);
    ShowFloatShape(r.humidity);
    JoinFour(Fields(r), ',');
  }

  /** Two floats of the same sign with the same nearest decimal. */
  ghost predicate Alike(a: Word, b: Word) {
    (a >= 0x8000_0000 <==> b >= 0x8000_0000) && exists h: nat :: Nearest(h, a) && Nearest(h, b)
  }

  lemma AlikeIs(a: Word, b: Word)
    requires Finite(a) && Finite(b)
    ensures Alike(a, b) <==> Rounded(a) == Rounded(b)
  {
    RoundedNearest(a);
    RoundedNearest(b);
    if Alike(a, b) {
      var h: nat :| Nearest(h, a) && Nearest(h, b);
      NearestOnce(h, Rounded(a).hundredths, a);
      NearestOnce(h, Rounded(b).hundredths, b);
    }
  }

  /** Equal payloads come from readings that agree in both integers and in both
      floats to the nearest hundredth. */
  lemma PayloadInjective(r: SensorData, q: SensorData)
    requires AllFinite(r) && AllFinite(q)
    ensures ToString(r) == ToString(q) <==>
            r.timestamp == q.timestamp && r.co2 == q.co2 &&
            Alike(r.temperature, q.temperature) && Alike(r.humidity, q.humidity)
  {
    AlikeIs(r.temperature, q.temperature);
    AlikeIs(r.humidity, q.humidity);
    if ToString(r) == ToString(q) {
      PayloadFields(r);
      PayloadFields(q);
      assert Fields(r)[0] == Fields(q)[0] && Fields(r)[1] == Fields(q)[1] &&
             Fields(r)[2] == Fields(q)[2] && Fields(r)[3] == Fields(q)[3];
      Fixed2Injective(Rounded(r.temperature), Rounded(q.temperature));
      Fixed2Injective(Rounded(r.humidity), Rounded(q.humidity));
    }
  }

  // ---------------------------------------------------------------- frame

  function Untruncated(data: string, tag: string): string {
    tag + Digits(|data|) + ":" + data
  }

  /** `NetworkTask::FormatDataString` */
  function FormatDataString(data: string, tag: string): string {
    Snprintf(BUFFER_SIZE, Untruncated(data, tag))
  }

  predicate IsTag(tag: string) {
    tag == NEW_SENSOR_READING_TAG || tag == OLD_SENSOR_READING_TAG
  }

  function Frame(r: SensorData, tag: string): string {
    FormatDataString(ToString(r), tag)
  }

  /** Frames are never truncated and hold no line break. */
  lemma FrameWhole(r: SensorData, tag: string)
    requires IsTag(tag)
    ensures |Frame(r, tag)| <= 116
    ensures Frame(r, tag) == tag + Digits(|ToString(r)|) + ":" + ToString(r) == Untruncated(ToString(r), tag)
    ensures Free(Frame(r, tag), '\n') && Free(Frame(r, tag), '\r')
  {
    PayloadFields(r);
    PayloadChars(r);
    LengthDigits(|ToString(r)|);
    UntruncatedFree(ToString(r), tag);
  }

  lemma LengthDigits(n: nat)
    requires n < 1000
    ensures |Digits(n)| <= 3
  {
    assert Pow10(3) == 1000;
    DigitsLength(n, 3);
  }

  lemma UntruncatedFree(payload: string, tag: string)
    requires IsTag(tag) && forall i | 0 <= i < |payload| :: PayloadChar(payload[i])
    ensures Free(Untruncated(payload, tag), '\n') && Free(Untruncated(payload, tag), '\r')
  {
    var digits := Digits(|payload|);
    assert Free(digits, '\n') && Free(digits, '\r');
    assert Free(payload, '\n') && Free(payload, '\r');
  }

  lemma FrameSplit(r: SensorData, tag: string)
    requires IsTag(tag)
    ensures Split(Frame(r, tag), ':') == [tag + Digits(|ToString(r)|), ToString(r)]
  {
    FrameWhole(r, tag);
    PayloadChars(r);
    SplitAt(tag + Digits(|ToString(r)|), ToString(r), ':');
    SplitAt(ToString(r), [], ':');
  }

  /** Equal frames carry equal tags and equal payloads. */
  lemma FrameInjective(r: SensorData, tag: string, q: SensorData, tag': string)
    requires IsTag(tag) && IsTag(tag')
    ensures Frame(r, tag) == Frame(q, tag') <==> tag == tag' && ToString(r) == ToString(q)
  {
    if Frame(r, tag) == Frame(q, tag') {
      FrameWhole(r, tag);
      FrameWhole(q, tag');
      assert tag == Frame(r, tag)[..3] && tag' == Frame(q, tag')[..3];
      FrameSplit(r, tag);
      FrameSplit(q, tag');
      assert Split(Frame(r, tag), ':')[1] == ToString(r);
      assert Split(Frame(q, tag'), ':')[1] == ToString(q);
    }
  }
}
