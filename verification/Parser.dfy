/** `Parser::Parse`: the dashboard's reading of one received line. */
module Parser {
  import opened Words
  import opened Text
  import opened Protocol

  const ULONG_SPAN: nat := 0x1_0000_0000_0000_0000

  datatype ParsingResult = Rejected | Accepted(data: SensorData, tag: string)

  /** `std::isspace` in the C locale. */
  predicate IsSpace(c: char) {
    c == ' ' || '\t' <= c <= '\r'
  }

  function SkipSpace(s: string): string {
    if s != [] && IsSpace(s[0]) then SkipSpace(s[1..]) else s
  }

  /** The longest prefix of decimal digits. */
  function DigitPrefix(s: string): (ds: string)
    ensures AllDigits(ds)
  {
    if s != [] && IsDigit(s[0]) then [s[0]] + DigitPrefix(s[1..]) else []
  }

  function Magnitude(s: string): Option<nat> {
    var ds := DigitPrefix(s);
    if ds == [] || DigitsValue(ds) >= ULONG_SPAN then None else Some(DigitsValue(ds))
  }

  /** `std::stoul` and `std::stoull` with 64-bit results; `None` is the
      exception. A minus sign negates modulo 2^64. */
  function Stoul(s: string): Option<nat> {
    var t := SkipSpace(s);
    if t == [] || (t[0] != '-' && t[0] != '+') then Magnitude(t)
    else
      var m := Magnitude(t[1..]);
      if m.Some? && t[0] == '-' then Some((ULONG_SPAN - m.value) % ULONG_SPAN) else m
  }

  /** `std::stof` is the library's: a function from text to a bit pattern, or
      its exception. */
  type Stof = string -> Option<Word>

  function ReadTokens(tokens: seq<string>, stof: Stof): Option<SensorData> {
    if |tokens| != 4 then None
    else
      var timestamp, temperature, humidity, co2 := Stoul(tokens[0]), stof(tokens[1]), stof(tokens[2]), Stoul(tokens[3]);
      if timestamp.None? || temperature.None? || humidity.None? || co2.None? then None
      else Some(SensorData(timestamp.value % WORD_SPAN, temperature.value, humidity.value, co2.value % WORD_SPAN))
  }

  function ParseParts(header: string, data: string, stof: Stof): ParsingResult {
    var tag := header[..Min(3, |header|)];
    if !IsTag(tag) then Rejected
    else
      var length := Stoul(header[3..]);
      if length.None? || |data| != length.value then Rejected
      else
        var reading := ReadTokens(Split(data, ','), stof);
        if reading.None? then Rejected else Accepted(reading.value, tag)
  }

  function Parse(message: string, stof: Stof): ParsingResult {
    var tokens := Split(message, ':');
    if |tokens| != 2 then Rejected else ParseParts(tokens[0], tokens[1], stof)
  }

  /** What the dashboard can know of a reading: the floats come back as whatever
      `stof` makes of their two printed places. */
  predicate Readable(r: SensorData, stof: Stof) {
    stof(ShowFloat(r.temperature)).Some? && stof(ShowFloat(r.humidity)).Some?
  }

  function Received(r: SensorData, stof: Stof): SensorData
    requires Readable(r, stof)
  {
    SensorData(r.timestamp, stof(ShowFloat(r.temperature)).value, stof(ShowFloat(r.humidity)).value, r.co2)
  }

  lemma {:induction false} DigitPrefixStops(ds: string, rest: string)
    requires AllDigits(ds)
    requires rest == [] || !IsDigit(rest[0])
    ensures DigitPrefix(ds + rest) == ds
  {
    if ds == [] {
      assert ds + rest == rest;
    } else {
      assert IsDigit(ds[0]);
      assert (ds + rest)[1..] == ds[1..] + rest;
      DigitPrefixStops(ds[1..], rest);
      assert ds == [ds[0]] + ds[1..];
    }
  }

  predicate StopsNumber(rest: string) {
    rest == [] || (!IsDigit(rest[0]) && !IsSpace(rest[0]) && rest[0] != '+' && rest[0] != '-')
  }

  /** `stoul` reads the leading digits and ignores what follows. */
  lemma StoulDigits(ds: string, rest: string)
    requires AllDigits(ds) && StopsNumber(rest)
    requires DigitsValue(ds) < ULONG_SPAN
    ensures Stoul(ds + rest) == if ds == [] then None else Some(DigitsValue(ds))
  {
    var t := ds + rest;
    DigitPrefixStops(ds, rest);
    assert t == [] || StopsNumber(t) || IsDigit(t[0]) by {
      if ds != [] {
        assert t[0] == ds[0] && IsDigit(ds[0]);
      } else {
        assert t == rest;
      }
    }
    assert SkipSpace(t) == t;
  }

  lemma StoulRoundTrip(n: nat)
    requires n < ULONG_SPAN
    ensures Stoul(Digits(n)) == Some(n)
  {
    DigitsRoundTrip(n);
    StoulDigits(Digits(n), []);
    assert Digits(n) + [] == Digits(n);
  }

  lemma ReadFields(fs: seq<string>, timestamp: Word, co2: Word, stof: Stof)
    requires |fs| == 4 && Stoul(fs[0]) == Some(timestamp) && Stoul(fs[3]) == Some(co2)
    ensures ReadTokens(fs, stof) ==
            if stof(fs[1]).Some? && stof(fs[2]).Some?
            then Some(SensorData(timestamp, stof(fs[1]).value, stof(fs[2]).value, co2)) else None
  {
  }

  lemma ParsePayload(r: SensorData, stof: Stof)
    ensures ReadTokens(Split(ToString(r), ','), stof) ==
            if Readable(r, stof) then Some(Received(r, stof)) else None
  {
    PayloadFields(r);
    StoulRoundTrip(r.timestamp);
    StoulRoundTrip(r.co2);
    ReadFields(Fields(r), r.timestamp, r.co2, stof);
  }

  /** Round trip: every frame the firmware can print is accepted with its tag,
      exactly when `stof` accepts its two decimals. */
  lemma ParseFrame(r: SensorData, tag: string, stof: Stof)
    requires IsTag(tag)
    ensures Parse(Frame(r, tag), stof) ==
            if Readable(r, stof) then Accepted(Received(r, stof), tag) else Rejected
  {
    var payload := ToString(r);
    PayloadFields(r);
    FrameSplit(r, tag);
    var header := tag + Digits(|payload|);
    assert header[..3] == tag && header[3..] == Digits(|payload|);
    StoulRoundTrip(|payload|);
    ParsePayload(r, stof);
  }

  /** A frame cut short, anywhere, is never accepted. */
  lemma PrefixRejected(r: SensorData, tag: string, k: nat, stof: Stof)
    requires IsTag(tag)
    ensures k < |Frame(r, tag)| ==> Parse(Frame(r, tag)[..k], stof) == Rejected
  {
    if k < |Frame(r, tag)| {
      ShortFrame(r, tag, k, stof);
    }
  }

  lemma ShortFrame(r: SensorData, tag: string, k: nat, stof: Stof)
    requires IsTag(tag) && k < |Frame(r, tag)|
    ensures Parse(Frame(r, tag)[..k], stof) == Rejected
  {
    var payload, cut := ToString(r), Frame(r, tag)[..k];
    var header := tag + Digits(|payload|);
    FrameWhole(r, tag);
    PayloadFields(r);
    PayloadChars(r);
    if k <= |header| {
      assert cut == header[..k];
      SplitAt(cut, [], ':');
    } else {
      var data := payload[..k - |header| - 1];
      assert cut == header + ":" + data;
      ShortData(tag, |payload|, data, stof);
    }
  }

  /** Fewer characters than the header says. */
  lemma ShortData(tag: string, n: nat, data: string, stof: Stof)
    requires IsTag(tag) && Free(tag + Digits(n), ':') && Free(data, ':') && |data| < n < ULONG_SPAN
    ensures Parse(tag + Digits(n) + ":" + data, stof) == Rejected
  {
    var header := tag + Digits(n);
    SplitAt(header, data, ':');
    SplitAt(data, [], ':');
    assert header[..3] == tag && header[3..] == Digits(n);
    StoulRoundTrip(n);
  }

  /** The digits of a payload length, cut short, name no payload length. */
  lemma LengthPrefix(n: nat, k: nat)
    requires 11 <= n <= 109 && k < |Digits(n)|
    ensures DigitsValue(Digits(n)[..k]) < 11
  {
    var ds := Digits(n);
    assert Init(ds) == Digits(n / 10);
    DigitsRoundTrip(n / 10);
    if k == |ds| - 1 {
      assert ds[..k] == Init(ds);
    } else if n >= 100 {
      assert n / 10 / 10 == 1;
      assert Init(Init(ds)) == Digits(1);
      if k == 1 {
        assert ds[..k] == Digits(1);
      } else {
        assert k == 0;
      }
    } else {
      assert k == 0;
    }
  }

  // ---------------------------------------------------------------- what is accepted

  /** Blanks, perhaps a sign, digits, and then anything but a digit: the subject
      sequence of `strtoul` in base 10 (section 7.22.1.4 of ISO/IEC 9899:2011). */
  predicate NumberText(s: string, blanks: string, sign: string, digits: string, rest: string) {
    && s == blanks + (sign + (digits + rest))
    && (forall i | 0 <= i < |blanks| :: blanks[i] == ' ' || '\t' <= blanks[i] <= '\r')
    && (sign == "" || sign == "+" || sign == "-")
    && digits != "" && AllDigits(digits) && (rest != "" ==> !('0' <= rest[0] <= '9'))
  }

  lemma {:induction false} SkipBlanks(blanks: string, rest: string)
    requires forall i | 0 <= i < |blanks| :: IsSpace(blanks[i])
    requires rest != "" && !IsSpace(rest[0])
    ensures SkipSpace(blanks + rest) == rest
  {
    if blanks == [] {
      assert blanks + rest == rest;
    } else {
      assert (blanks + rest)[1..] == blanks[1..] + rest;
      SkipBlanks(blanks[1..], rest);
    }
  }

  /** A number is read as its digits say, modulo 2^64 behind a minus sign, and refused
      exactly when they say 2^64 or more. */
  lemma StoulReads(s: string, blanks: string, sign: string, digits: string, rest: string)
    requires NumberText(s, blanks, sign, digits, rest)
    ensures var n, span := DigitsValue(digits), 0x1_0000_0000_0000_0000;
            Stoul(s) == if n >= span then None else if sign == "-" then Some((span - n) % span) else Some(n)
  {
    var number := digits + rest;
    assert number[0] == digits[0] && IsDigit(digits[0]);
    DigitPrefixStops(digits, rest);
    SkipBlanks(blanks, sign + number);
    assert sign == "" ==> sign + number == number;
    assert sign != "" ==> (sign + number)[1..] == number;
  }

  /** Nothing else is read as a number. */
  lemma StoulRefuses(s: string) returns (blanks: string, sign: string, digits: string, rest: string)
    ensures Stoul(s).Some? ==> NumberText(s, blanks, sign, digits, rest)
  {
    blanks := LeadingBlanks(s);
    var t := SkipSpace(s);
    sign := if t != [] && (t[0] == '-' || t[0] == '+') then [t[0]] else [];
    var number := t[|sign|..];
    digits := DigitPrefix(number);
    rest := LeadingDigits(number);
    assert t == sign + number;
  }

  lemma {:induction false} LeadingBlanks(s: string) returns (blanks: string)
    ensures s == blanks + SkipSpace(s) && forall i | 0 <= i < |blanks| :: IsSpace(blanks[i])
  {
    if s != [] && IsSpace(s[0]) {
      var more := LeadingBlanks(s[1..]);
      blanks := [s[0]] + more;
      assert s == [s[0]] + s[1..];
    } else {
      blanks := [];
    }
  }

  lemma {:induction false} LeadingDigits(s: string) returns (rest: string)
    ensures s == DigitPrefix(s) + rest && (rest != [] ==> !IsDigit(rest[0]))
  {
    if s != [] && IsDigit(s[0]) {
      rest := LeadingDigits(s[1..]);
      assert s == [s[0]] + s[1..];
    } else {
      rest := s;
      assert [] + s == s;
    }
  }

  function Payload(fields: seq<string>): string
    requires |fields| == 4
  {
    fields[0] + "," + fields[1] + "," + fields[2] + "," + fields[3]
  }

  /** A message with one of the two tags, the true length of its payload, and a payload
      of exactly four fields that are read as this reading. */
  predicate Carries(message: string, length: string, fields: seq<string>, r: SensorData, tag: string, stof: Stof) {
    && (tag == "SRD" || tag == "SRH") && |fields| == 4
    && message == tag + length + ":" + Payload(fields)
    && Free(length, ':') && AllFree(fields, ':') && AllFree(fields, ',')
    && Stoul(length) == Some(|Payload(fields)|)
    && stof(fields[1]) == Some(r.temperature) && stof(fields[2]) == Some(r.humidity)
    && Stoul(fields[0]).Some? && Stoul(fields[0]).value % 0x1_0000_0000 == r.timestamp
    && Stoul(fields[3]).Some? && Stoul(fields[3]).value % 0x1_0000_0000 == r.co2
  }

  lemma CarriedIsAccepted(message: string, length: string, fields: seq<string>, r: SensorData, tag: string, stof: Stof)
    requires Carries(message, length, fields, r, tag, stof)
    ensures Parse(message, stof) == Accepted(r, tag)
  {
    var header, payload := tag + length, Payload(fields);
    SplitAt(header, payload, ':');
    NoCut(payload, ':');
    assert message == header + [':'] + payload;
    PartsAreAccepted(tag, length, fields, r, stof);
  }

  lemma PartsAreAccepted(tag: string, length: string, fields: seq<string>, r: SensorData, stof: Stof)
    requires IsTag(tag) && |fields| == 4 && AllFree(fields, ',') && Stoul(length) == Some(|Payload(fields)|)
    requires ReadTokens(fields, stof) == Some(r)
    ensures ParseParts(tag + length, Payload(fields), stof) == Accepted(r, tag)
  {
    JoinFour(fields, ',');
    SplitJoinFree(fields, ',');
    assert (tag + length)[..3] == tag && (tag + length)[3..] == length;
  }

  lemma AcceptedIsCarried(message: string, r: SensorData, tag: string, stof: Stof)
    returns (length: string, fields: seq<string>)
    requires Parse(message, stof) == Accepted(r, tag)
    ensures Carries(message, length, fields, r, tag, stof)
  {
    var tokens := Split(message, ':');
    var header, payload := tokens[0], tokens[1];
    length, fields := header[3..], Split(payload, ',');
    PiecesAreFree(message, ':');
    PiecesAreFree(payload, ',');
    PiecesKeepFree(payload, ',', ':');
    JoinSplit(message, ':');
    JoinSplit(payload, ',');
    JoinFour(fields, ',');
    assert Join(tokens, ':') == header + [':'] + payload;
    assert header == tag + length;
  }

  /** Exactly which messages are accepted, and as what. */
  lemma AcceptedExactly(message: string, r: SensorData, tag: string, stof: Stof)
    ensures Parse(message, stof) == Accepted(r, tag) <==>
            exists length, fields :: Carries(message, length, fields, r, tag, stof)
  {
    if Parse(message, stof) == Accepted(r, tag) {
      var length, fields := AcceptedIsCarried(message, r, tag, stof);
    }
    if exists length, fields :: Carries(message, length, fields, r, tag, stof) {
      var length, fields :| Carries(message, length, fields, r, tag, stof);
      CarriedIsAccepted(message, length, fields, r, tag, stof);
    }
  }

  // ---------------------------------------------------------------- fragments

  /** A frame whose transmission broke off after `cut` characters. */
  datatype Fragment = Fragment(reading: SensorData, tag: string, cut: nat)

  function HeaderOf(r: SensorData, tag: string): string {
    tag + Digits(|ToString(r)|)
  }

  predicate Broken(f: Fragment) {
    IsTag(f.tag) && 0 < f.cut <= |Frame(f.reading, f.tag) + "\r"|
  }

  predicate AllBroken(fs: seq<Fragment>) {
    forall i | 0 <= i < |fs| :: Broken(fs[i])
  }

  function Arrived(f: Fragment): string
    requires Broken(f)
  {
    (Frame(f.reading, f.tag) + "\r")[..f.cut]
  }

  /** What the server holds after these fragments, each the start of a connection
      of its own. */
  function Remains(fs: seq<Fragment>): string
    requires AllBroken(fs)
  {
    if fs == [] then "" else Arrived(fs[0]) + Remains(fs[1..])
  }

  /** Each of these broke off before its colon. */
  predicate Colonless(fs: seq<Fragment>) {
    forall i | 0 <= i < |fs| :: fs[i].cut <= |HeaderOf(fs[i].reading, fs[i].tag)|
  }

  lemma FrameCut(f: Fragment)
    requires Broken(f)
    ensures var header, payload := HeaderOf(f.reading, f.tag), ToString(f.reading) + "\r";
            && Free(header, ':') && Free(Arrived(f), '\n')
            && f.cut <= |header| + 1 + |payload| && Arrived(f) == (header + ":" + payload)[..f.cut]
            && Arrived(f)[0] == 'S'
  {
    FrameWhole(f.reading, f.tag);
    FrameSplit(f.reading, f.tag);
    PiecesAreFree(Frame(f.reading, f.tag), ':');
    var header := HeaderOf(f.reading, f.tag);
    assert Split(Frame(f.reading, f.tag), ':')[0] == header;
    assert Frame(f.reading, f.tag) + "\r" == header + ":" + (ToString(f.reading) + "\r");
  }

  lemma {:induction false} RemainsFree(fs: seq<Fragment>)
    requires AllBroken(fs)
    ensures Free(Remains(fs), '\n')
    ensures fs != [] ==> Remains(fs) != [] && Remains(fs)[0] == 'S'
  {
    if fs != [] {
      FrameCut(fs[0]);
      RemainsFree(fs[1..]);
    }
  }

  /** One fragment in front of a line. */
  lemma BehindFragment(f: Fragment, next: string)
    requires Broken(f) && |Split(next, ':')| >= 2
    ensures var tokens, parts := Split(Arrived(f) + next, ':'), Split(next, ':');
            if f.cut <= |HeaderOf(f.reading, f.tag)| && |parts| == 2
            then tokens == [Arrived(f) + parts[0], parts[1]] else |tokens| > 2
  {
    FrameCut(f);
    if |Split(next, ':')| == 2 {
      GluedTokens(HeaderOf(f.reading, f.tag), ToString(f.reading) + "\r", next, f.cut);
      if f.cut <= |HeaderOf(f.reading, f.tag)| {
        assert Arrived(f) == HeaderOf(f.reading, f.tag)[..f.cut];
      }
    } else {
      SplitConcat(Arrived(f), next, ':');
    }
  }

  /** The first fragment ends just before its colon, no other has one, and the first
      length is that of the payload to come. */
  predicate Sneaks(fs: seq<Fragment>, q: SensorData)
    requires fs != []
  {
    && fs[0].cut == |HeaderOf(fs[0].reading, fs[0].tag)| && Colonless(fs[1..])
    && |ToString(fs[0].reading)| == |ToString(q)|
  }

  lemma ColonlessFirst(fs: seq<Fragment>)
    requires fs != []
    ensures Colonless(fs) <==> fs[0].cut <= |HeaderOf(fs[0].reading, fs[0].tag)| && Colonless(fs[1..])
  {
    assert forall i | 0 < i < |fs| :: fs[i] == fs[1..][i - 1];
  }

  /** A whole frame behind fragments has two parts at its colon exactly when none of
      them reached its own. */
  lemma {:induction false} RemainsSplit(fs: seq<Fragment>, q: SensorData, tag: string)
    requires AllBroken(fs) && IsTag(tag)
    ensures var tokens := Split(Remains(fs) + Frame(q, tag), ':');
            if Colonless(fs) then tokens == [Remains(fs) + HeaderOf(q, tag), ToString(q)] else |tokens| > 2
  {
    FrameSplit(q, tag);
    if fs == [] {
      assert "" + Frame(q, tag) == Frame(q, tag) && "" + HeaderOf(q, tag) == HeaderOf(q, tag);
    } else {
      RemainsSplit(fs[1..], q, tag);
      ColonlessFirst(fs);
      BehindFragment(fs[0], Remains(fs[1..]) + Frame(q, tag));
      Regroup(Arrived(fs[0]), Remains(fs[1..]), Frame(q, tag));
      Regroup(Arrived(fs[0]), Remains(fs[1..]), HeaderOf(q, tag));
    }
  }

  /** A fragment in front of a line with two parts. */
  lemma GluedBehind(f: Fragment, next: string, header: string, data: string, stof: Stof)
    requires Broken(f) && Split(next, ':') == [header, data]
    requires |header| >= 3 && header[0] == 'S' && |data| >= 11
    ensures var reading := ReadTokens(Split(data, ','), stof);
            Parse(Arrived(f) + next, stof) ==
            if f.cut == |HeaderOf(f.reading, f.tag)| && |ToString(f.reading)| == |data| && reading.Some?
            then Accepted(reading.value, f.tag) else Rejected
  {
    FrameCut(f);
    PayloadFields(f.reading);
    GluedParse(f.tag, |ToString(f.reading)|, ToString(f.reading) + "\r", next, header, data, f.cut, stof);
  }

  /** What is left of a frame when the link drops is kept, and glued to what the next
      connections send, up to the first whole frame. The glued line is accepted in
      one case only: the first fragment broke off exactly between its length and its
      colon, the later ones before their colons, and the first length is that of the
      whole frame's payload. It then carries the last reading under the first one's
      tag. */
  lemma GluedFrame(fs: seq<Fragment>, q: SensorData, tag: string, stof: Stof)
    requires fs != [] && AllBroken(fs) && IsTag(tag)
    ensures Parse(Remains(fs) + Frame(q, tag), stof) ==
            if Sneaks(fs, q) && Readable(q, stof) then Accepted(Received(q, stof), fs[0].tag) else Rejected
  {
    var later := Remains(fs[1..]);
    Regroup(Arrived(fs[0]), later, Frame(q, tag));
    ColonlessFirst(fs);
    if Colonless(fs[1..]) {
      RemainsSplit(fs[1..], q, tag);
      RemainsStart(fs[1..], HeaderOf(q, tag));
      PayloadFields(q);
      ParsePayload(q, stof);
      GluedBehind(fs[0], later + Frame(q, tag), later + HeaderOf(q, tag), ToString(q), stof);
    } else {
      RemainsSplit(fs, q, tag);
    }
  }

  lemma RemainsStart(fs: seq<Fragment>, header: string)
    requires AllBroken(fs) && |header| >= 3 && header[0] == 'S'
    ensures |Remains(fs) + header| >= 3 && (Remains(fs) + header)[0] == 'S'
  {
    RemainsFree(fs);
  }

  /** A history frame broken off before its colon, then the same reading sent fresh:
      it is taken for history. */
  lemma WrongTag(r: SensorData, stof: Stof)
    requires Readable(r, stof)
    ensures var f := Fragment(r, OLD_SENSOR_READING_TAG, |HeaderOf(r, OLD_SENSOR_READING_TAG)|);
            && Broken(f)
            && Parse(Arrived(f) + Frame(r, NEW_SENSOR_READING_TAG), stof) ==
               Accepted(Received(r, stof), OLD_SENSOR_READING_TAG)
  {
    var f := Fragment(r, OLD_SENSOR_READING_TAG, |HeaderOf(r, OLD_SENSOR_READING_TAG)|);
    FrameWhole(r, f.tag);
    FrameSplit(r, f.tag);
    JoinSplit(Frame(r, f.tag), ':');
    GluedFrame([f], r, NEW_SENSOR_READING_TAG, stof);
    assert Remains([f]) == Arrived(f) + "" == Arrived(f);
  }

  lemma GluedParse(tag: string, n: nat, payload: string, next: string, header: string, data: string, k: nat, stof: Stof)
    requires IsTag(tag) && 11 <= n <= 109 && |data| >= 11
    requires Split(next, ':') == [header, data] && |header| >= 3 && header[0] == 'S'
    requires 0 < k <= 3 + |Digits(n)| + 1 + |payload|
    ensures var reading := ReadTokens(Split(data, ','), stof);
            Parse((tag + Digits(n) + ":" + payload)[..k] + next, stof) ==
            if k == 3 + |Digits(n)| && n == |data| && reading.Some?
            then Accepted(reading.value, tag) else Rejected
  {
    GluedTokens(tag + Digits(n), payload, next, k);
    if k <= 3 + |Digits(n)| {
      GluedHeader(tag, n, k, header, data, stof);
    }
  }

  lemma GluedTokens(header: string, payload: string, next: string, k: nat)
    requires Free(header, ':') && |Split(next, ':')| == 2
    requires k <= |header| + 1 + |payload|
    ensures var tokens := Split((header + ":" + payload)[..k] + next, ':');
            if k > |header| then |tokens| > 2
            else tokens == [header[..k] + Split(next, ':')[0], Split(next, ':')[1]]
  {
    var left := (header + ":" + payload)[..k];
    if k > |header| {
      var after := payload[..k - |header| - 1];
      assert left == header + ":" + after;
      MoreThanTwo(header, after, next);
    } else {
      assert left == header[..k];
      TwoTokens(left, next);
    }
  }

  lemma MoreThanTwo(header: string, after: string, next: string)
    requires Free(header, ':') && |Split(next, ':')| == 2
    ensures |Split(header + ":" + after + next, ':')| > 2
  {
    SplitAt(header, after, ':');
    SplitConcat(header + ":" + after, next, ':');
  }

  lemma TwoTokens(left: string, next: string)
    requires Free(left, ':') && |Split(next, ':')| == 2
    ensures Split(left + next, ':') == [left + Split(next, ':')[0], Split(next, ':')[1]]
  {
    SplitAt(left, [], ':');
    SplitConcat(left, next, ':');
  }

  /** The length field of a glued line reads as the part of the first length that
      was already received. */
  lemma GluedLength(n: nat, k: nat, rest: string)
    requires 11 <= n <= 109 && k <= |Digits(n)| && StopsNumber(rest)
    ensures k == |Digits(n)| ==> Stoul(Digits(n)[..k] + rest) == Some(n)
    ensures k < |Digits(n)| ==> Stoul(Digits(n)[..k] + rest).None? || Stoul(Digits(n)[..k] + rest).value < 11
  {
    DigitsRoundTrip(n);
    if k < |Digits(n)| {
      LengthPrefix(n, k);
    } else {
      assert Digits(n)[..k] == Digits(n);
    }
    StoulDigits(Digits(n)[..k], rest);
  }

  lemma GluedTag(tag: string, digits: string, k: nat, rest: string)
    requires IsTag(tag) && 0 < k <= 3 + |digits| && |rest| >= 3 && rest[0] == 'S'
    ensures var header := (tag + digits)[..k] + rest;
            if k < 3 then !IsTag(header[..3])
            else header[..3] == tag && header[3..] == digits[..k - 3] + rest
  {
    var header := (tag + digits)[..k] + rest;
    if k < 3 {
      assert header[..3][k] == 'S';
    } else {
      assert (tag + digits)[..k] == tag + digits[..k - 3];
    }
  }

  lemma GluedHeader(tag: string, n: nat, k: nat, rest: string, data: string, stof: Stof)
    requires IsTag(tag) && 11 <= n <= 109 && 0 < k <= 3 + |Digits(n)|
    requires |rest| >= 3 && rest[0] == 'S' && |data| >= 11
    ensures var reading := ReadTokens(Split(data, ','), stof);
            ParseParts((tag + Digits(n))[..k] + rest, data, stof) ==
            if k == 3 + |Digits(n)| && n == |data| && reading.Some?
            then Accepted(reading.value, tag) else Rejected
  {
    GluedTag(tag, Digits(n), k, rest);
    if k >= 3 {
      GluedLength(n, k - 3, rest);
    }
  }
}
