/** Serial configuration: a line reader over a fixed 128-byte buffer, then
    `strtok` cutting the line in place. */
module SerialConfig {
  import opened Words
  import opened Text

  const BUF_LEN: nat := 128
  const SSID_SIZE: nat := 33
  const PASSWORD_SIZE: nat := 64
  const IP_SIZE: nat := 16
  const NUL: char := '\0'

  datatype Settings = Settings(wifiSsid: string, wifiPassword: string, serverIp: string)

  // ---------------------------------------------------------------- meaning

  /** A line without its carriage returns. */
  function Visible(line: string): string {
    if line == [] then [] else Visible(Init(line)) + (if Last(line) == '\r' then [] else [Last(line)])
  }

  /** What the buffer holds after a line: a full buffer is emptied and the
      character that found it full is dropped with it. */
  function Delivered(line: string): string {
    line[|line| - |line| % BUF_LEN..]
  }

  /** The buffer's contents, one character at a time. */
  function Held(line: string): (held: string)
    ensures |held| < BUF_LEN
  {
    if line == [] then []
    else
      var held := Held(Init(line));
      if Last(line) == '\r' then held else if |held| < BUF_LEN - 1 then held + [Last(line)] else []
  }

  /** The characters before the first NUL. */
  function CString(s: string): string {
    if s == [] || s[0] == NUL then [] else [s[0]] + CString(s[1..])
  }

  function NonEmpty(ps: seq<string>): seq<string> {
    if ps == [] then [] else (if ps[0] == [] then [] else [ps[0]]) + NonEmpty(ps[1..])
  }

  /** The maximal runs of characters other than `;`. */
  function Tokens(s: string): seq<string> {
    NonEmpty(Split(s, ';'))
  }

  /** Exactly three fields make a configuration. */
  function FromTokens(tokens: seq<string>): Option<Settings> {
    if |tokens| == 3 then Some(Settings(tokens[0], tokens[1], tokens[2])) else None
  }

  function ParseLine(line: string): Option<Settings> {
    FromTokens(Tokens(CString(Held(line))))
  }

  function FirstAccepted(lines: seq<string>): Option<Settings> {
    if lines == [] then None
    else if ParseLine(lines[0]).Some? then ParseLine(lines[0])
    else FirstAccepted(lines[1..])
  }

  /** The lines a byte stream completes. */
  function LinesOf(stream: string): seq<string> {
    Init(Split(stream, '\n'))
  }

  /** Each field and its terminator have room in their destination. */
  predicate CopiesFit(c: Settings) {
    |c.wifiSsid| < SSID_SIZE && |c.wifiPassword| < PASSWORD_SIZE && |c.serverIp| < IP_SIZE
  }

  /** What a byte stream comes to: still waiting for a line with three fields, its
      fields stored, or a copy that ran past the end of its destination. */
  datatype Outcome = Waiting | Stored(settings: Settings) | Overrun

  function Copied(accepted: Option<Settings>): Outcome {
    if accepted.None? then Waiting
    else if CopiesFit(accepted.value) then Stored(accepted.value) else Overrun
  }

  function OutcomeOf(stream: string): Outcome {
    Copied(FirstAccepted(LinesOf(stream)))
  }

  // ---------------------------------------------------------------- tokens

  lemma TokensSkip(s: string)
    requires s != [] && s[0] == ';'
    ensures Tokens(s) == Tokens(s[1..])
  {
    var ps := Split(s[1..], ';');
    assert ([[]] + ps)[1..] == ps;
  }

  lemma TokensTake(t: string, rest: string)
    requires t != [] && Free(t, ';')
    ensures Tokens(t) == [t]
    ensures Tokens(t + [';'] + rest) == [t] + Tokens(rest)
  {
    SplitAt(t, rest, ';');
    assert ([t] + Split(rest, ';'))[1..] == Split(rest, ';');
    assert NonEmpty([t]) == [t] + NonEmpty([]);
  }

  function TotalLength(ts: seq<string>): nat {
    if ts == [] then 0 else |ts[0]| + TotalLength(ts[1..])
  }

  lemma {:induction false} NonEmptyLength(ps: seq<string>)
    ensures TotalLength(NonEmpty(ps)) == TotalLength(ps) && |NonEmpty(ps)| <= |ps|
  {
    if ps != [] {
      NonEmptyLength(ps[1..]);
      if ps[0] == [] {
        assert NonEmpty(ps) == NonEmpty(ps[1..]);
      } else {
        assert NonEmpty(ps)[1..] == NonEmpty(ps[1..]);
      }
    }
  }

  lemma {:induction false} SplitLength(s: string, c: char)
    ensures TotalLength(Split(s, c)) + |Split(s, c)| - 1 == |s|
  {
    if s != [] {
      SplitLength(s[1..], c);
      var ps := Split(s[1..], c);
      if s[0] == c {
        assert ([[]] + ps)[1..] == ps;
      } else {
        assert Grow(s[0], ps)[1..] == ps[1..];
      }
    }
  }

  lemma {:induction false} NonEmptyKeeps(ps: seq<string>, x: char)
    requires AllFree(ps, x)
    ensures AllFree(NonEmpty(ps), x)
    ensures forall i | 0 <= i < |NonEmpty(ps)| :: NonEmpty(ps)[i] != []
  {
    if ps != [] {
      assert AllFree(ps[1..], x);
      NonEmptyKeeps(ps[1..], x);
    }
  }

  /** Tokens are non-empty, hold no delimiter and no character the text lacks, and
      with one delimiter between neighbours fit into the text. */
  lemma TokensShape(s: string, x: char)
    requires Free(s, x)
    ensures AllFree(Tokens(s), ';') && AllFree(Tokens(s), x)
    ensures forall i | 0 <= i < |Tokens(s)| :: Tokens(s)[i] != []
    ensures TotalLength(Tokens(s)) + |Tokens(s)| <= |s| + 1
  {
    PiecesAreFree(s, ';');
    PiecesKeepFree(s, ';', x);
    NonEmptyKeeps(Split(s, ';'), ';');
    NonEmptyKeeps(Split(s, ';'), x);
    SplitLength(s, ';');
    NonEmptyLength(Split(s, ';'));
  }

  // ---------------------------------------------------------------- round trip

  /** `fmt::format("{};{};{}\n", ...)` of the dashboard's serial handler. */
  function ConfigLine(c: Settings): string {
    c.wifiSsid + ";" + c.wifiPassword + ";" + c.serverIp
  }

  predicate Plain(s: string) {
    s != [] && Free(s, ';') && Free(s, '\r') && Free(s, '\n') && Free(s, NUL)
  }

  predicate PlainFields(c: Settings) {
    Plain(c.wifiSsid) && Plain(c.wifiPassword) && Plain(c.serverIp)
  }

  /** The configurations the line buffer can carry. */
  predicate Carried(c: Settings) {
    PlainFields(c) && |c.wifiSsid| + |c.wifiPassword| + |c.serverIp| + 2 < BUF_LEN
  }

  /** The configurations that can be sent: those the three fields of the firmware's
      `Config` have room for. */
  predicate Sendable(c: Settings) {
    PlainFields(c) && |c.wifiSsid| <= 32 && |c.wifiPassword| <= 63 && |c.serverIp| <= 15
  }

  lemma {:induction false} VisibleFree(line: string, x: char)
    requires Free(line, x)
    ensures Free(Visible(line), x)
  {
    if line != [] {
      VisibleFree(Init(line), x);
    }
  }

  lemma {:induction false} VisibleHasNoCR(line: string)
    ensures Free(Visible(line), '\r')
  {
    if line != [] {
      VisibleHasNoCR(Init(line));
    }
  }

  lemma {:induction false} VisibleSame(line: string)
    requires Free(line, '\r')
    ensures Visible(line) == line
  {
    if line != [] {
      assert Free(Init(line), '\r') && Last(line) != '\r';
      VisibleSame(Init(line));
      assert line == Init(line) + [Last(line)];
    }
  }

  lemma {:induction false} CStringShape(s: string)
    ensures Free(CString(s), NUL) && |CString(s)| <= |s| && CString(s) == s[..|CString(s)|]
    ensures Free(s, NUL) ==> CString(s) == s
    ensures |CString(s)| < |s| ==> s[|CString(s)|] == NUL
  {
    if s != [] && s[0] != NUL {
      CStringShape(s[1..]);
      assert Free(s, NUL) ==> Free(s[1..], NUL);
    }
  }

  lemma ParsedText(line: string, x: char)
    requires Free(line, x)
    ensures var text := CString(Held(line));
            Free(text, x) && Free(text, '\r') && Free(text, NUL) && |text| < BUF_LEN
  {
    HeldIsDelivered(line);
    VisibleFree(line, x);
    VisibleHasNoCR(line);
    CStringShape(Held(line));
  }

  lemma ThreeLengths(ts: seq<string>)
    requires |ts| == 3
    ensures TotalLength(ts) == |ts[0]| + |ts[1]| + |ts[2]|
  {
    assert TotalLength(ts[2..]) == |ts[2]|;
    assert TotalLength(ts[1..]) == |ts[1]| + TotalLength(ts[1..][1..]);
    assert ts[1..][1..] == ts[2..];
  }

  /** Whatever is accepted fits the line buffer. */
  lemma AcceptedIsCarried(line: string)
    requires Free(line, '\n') && ParseLine(line).Some?
    ensures Carried(ParseLine(line).value)
  {
    var text := CString(Held(line));
    ParsedText(line, '\n');
    TokensShape(text, '\n');
    TokensShape(text, '\r');
    TokensShape(text, NUL);
    var ts := Tokens(text);
    ThreeLengths(ts);
  }

  lemma {:induction false} FirstAcceptedIsCarried(lines: seq<string>)
    requires AllFree(lines, '\n') && FirstAccepted(lines).Some?
    ensures Carried(FirstAccepted(lines).value)
  {
    if ParseLine(lines[0]).Some? {
      AcceptedIsCarried(lines[0]);
    } else {
      FirstAcceptedIsCarried(lines[1..]);
    }
  }

  lemma SentLineParses(c: Settings)
    requires Carried(c)
    ensures Free(ConfigLine(c), '\n') && ParseLine(ConfigLine(c)) == Some(c)
  {
    var line := ConfigLine(c);
    SentShape(c);
    VisibleSame(line);
    CStringShape(line);
    HeldIsDelivered(line);
    ShortLine(line);
    SentTokens(c);
  }

  lemma SentShape(c: Settings)
    requires Carried(c)
    ensures var line := ConfigLine(c);
            Free(line, '\r') && Free(line, '\n') && Free(line, NUL) && |line| < BUF_LEN
  {
  }

  lemma ShortLine(line: string)
    requires |line| < BUF_LEN
    ensures Delivered(line) == line
  {
  }

  lemma SentTokens(c: Settings)
    requires Carried(c)
    ensures Tokens(ConfigLine(c)) == [c.wifiSsid, c.wifiPassword, c.serverIp]
  {
    ThreeTokens(c.wifiSsid, c.wifiPassword, c.serverIp);
  }

  lemma ThreeTokens(a: string, b: string, c: string)
    requires a != [] && b != [] && c != [] && Free(a, ';') && Free(b, ';') && Free(c, ';')
    ensures Tokens(a + ";" + b + ";" + c) == [a, b, c]
  {
    var tail := b + [';'] + c;
    TokensTake(a, tail);
    TokensTake(b, c);
    TokensTake(c, []);
    assert a + ";" + b + ";" + c == a + [';'] + tail;
  }

  /** A line the buffer carries is stored or overruns, by the lengths of its fields
      alone. */
  lemma CarriedOutcome(c: Settings, rest: string)
    requires Carried(c)
    ensures OutcomeOf(ConfigLine(c) + "\n" + rest) == if Sendable(c) then Stored(c) else Overrun
  {
    SentLineParses(c);
    SplitAt(ConfigLine(c), rest, '\n');
    assert LinesOf(ConfigLine(c) + "\n" + rest)[0] == ConfigLine(c);
  }

  /** Every line of a stream decides or is passed over: with exactly three tokens before
      the first NUL of what the buffer holds, it is stored or overruns by their lengths
      alone; else the lines after it decide. */
  lemma LineDecides(line: string, rest: string)
    requires Free(line, '\n')
    ensures var ts := Tokens(CString(Held(line)));
            OutcomeOf(line + "\n" + rest) ==
            if |ts| != 3 then OutcomeOf(rest)
            else if |ts[0]| <= 32 && |ts[1]| <= 63 && |ts[2]| <= 15 then Stored(Settings(ts[0], ts[1], ts[2]))
            else Overrun
    ensures OutcomeOf(line) == Waiting
  {
    SplitAt(line, rest, '\n');
    var later := LinesOf(rest);
    assert LinesOf(line + "\n" + rest) == [line] + later;
    assert ([line] + later)[1..] == later;
    assert LinesOf(line) == [];
  }

  /** These tokens with delimiters around them: `gaps[i]` of them before token `i`, the
      last of the gaps at the end. */
  function Spread(ts: seq<string>, gaps: seq<nat>): string
    requires |gaps| == |ts| + 1
    decreases |ts|
  {
    Repeat(';', gaps[0]) + if ts == [] then "" else ts[0] + Spread(ts[1..], gaps[1..])
  }

  lemma {:induction false} GapsSkipped(n: nat, rest: string)
    ensures Tokens(Repeat(';', n) + rest) == Tokens(rest)
  {
    if n == 0 {
      assert Repeat(';', n) + rest == rest;
    } else {
      GapsSkipped(n - 1, rest);
      TokensSkip(Repeat(';', n) + rest);
      assert (Repeat(';', n) + rest)[1..] == Repeat(';', n - 1) + rest;
    }
  }

  /** However many delimiters stand between them, before and after, the tokens are
      found. */
  lemma {:induction false} TokensFound(ts: seq<string>, gaps: seq<nat>)
    requires |gaps| == |ts| + 1 && AllFree(ts, ';') && (forall i | 0 <= i < |ts| :: ts[i] != "")
    requires forall i | 0 < i < |ts| :: gaps[i] > 0
    ensures Tokens(Spread(ts, gaps)) == ts
    decreases |ts|
  {
    if ts == [] {
      GapsSkipped(gaps[0], "");
    } else {
      var rest := Spread(ts[1..], gaps[1..]);
      GapsSkipped(gaps[0], ts[0] + rest);
      TokensFound(ts[1..], gaps[1..]);
      NextToken(ts[0], rest);
      assert ts == [ts[0]] + ts[1..];
    }
  }

  /** A token ends at the next delimiter or at the end of the text. */
  lemma NextToken(t: string, rest: string)
    requires t != [] && Free(t, ';') && (rest == "" || rest[0] == ';')
    ensures Tokens(t + rest) == [t] + Tokens(rest)
  {
    if rest == "" {
      assert t + rest == t;
      TokensTake(t, "");
      assert Tokens("") == [];
    } else {
      TokensTake(t, rest[1..]);
      TokensSkip(rest);
      assert t + [';'] + rest[1..] == t + rest;
    }
  }

  /** Config round trip: from a line boundary, the line the dashboard prints is
      stored as the same three fields exactly when they are non-empty, hold no `;`,
      CR, LF or NUL, and are at most 32, 63 and 15 characters long. */
  lemma ConfigRoundTrip(c: Settings, rest: string)
    ensures OutcomeOf(ConfigLine(c) + "\n" + rest) == Stored(c) <==> Sendable(c)
  {
    var stream := ConfigLine(c) + "\n" + rest;
    if Sendable(c) {
      CarriedOutcome(c, rest);
    }
    PiecesAreFree(stream, '\n');
    if FirstAccepted(LinesOf(stream)).Some? {
      FirstAcceptedIsCarried(LinesOf(stream));
    }
  }

  function Repeat(c: char, n: nat): (s: string)
    ensures |s| == n && forall i | 0 <= i < n :: s[i] == c
  {
    if n == 0 then [] else [c] + Repeat(c, n - 1)
  }

  /** A network name of 40 characters fits the line, but not `m_WiFiSSID`. */
  lemma LongNameOverruns()
    ensures var c := Settings(Repeat('a', 40), "b", "c");
            Carried(c) && OutcomeOf(ConfigLine(c) + "\n") == Overrun
  {
    var c := Settings(Repeat('a', 40), "b", "c");
    assert PlainFields(c);
    CarriedOutcome(c, "");
    assert ConfigLine(c) + "\n" + "" == ConfigLine(c) + "\n";
  }

  // ---------------------------------------------------------------- the code

  lemma DeliveredStep(line: string, c: char)
    ensures |Delivered(line)| < BUF_LEN
    ensures Delivered(line + [c]) == if |Delivered(line)| < BUF_LEN - 1 then Delivered(line) + [c] else []
  {
  }

  /** For a line of any length `L` without its carriage returns, the last `L % 128`
      characters are held. */
  lemma {:induction false} HeldIsDelivered(line: string)
    ensures Held(line) == Delivered(Visible(line))
    ensures Held(line) == Visible(line)[|Visible(line)| - |Visible(line)| % 128..]
  {
    if line != [] {
      HeldIsDelivered(Init(line));
      DeliveredStep(Visible(Init(line)), Last(line));
      assert Visible(Init(line)) + [] == Visible(Init(line));
    }
  }

  lemma HeldStep(input: string, from: nat, i: nat)
    requires from <= i < |input|
    ensures var held := Held(input[from..i]);
            Held(input[from..i + 1]) ==
            if input[i] == '\r' then held else if |held| < BUF_LEN - 1 then held + [input[i]] else []
    ensures Free(input[from..i], '\n') && input[i] != '\n' ==> Free(input[from..i + 1], '\n')
  {
    assert Init(input[from..i + 1]) == input[from..i];
  }

  /** Read until newline; `None` means the port has nothing more to say. */
  method ReadLine(buffer: array<char>, input: string, from: nat) returns (next: Option<nat>)
    requires buffer.Length == BUF_LEN && from <= |input|
    modifies buffer
    ensures next.None? ==> Free(input[from..], '\n')
    ensures next.Some? ==>
              && from < next.value <= |input| && input[next.value - 1] == '\n'
              && Free(input[from..next.value - 1], '\n')
              && (var line := Held(input[from..next.value - 1]);
                  |line| < BUF_LEN && buffer[..|line|] == line && buffer[|line|] == NUL)
  {
    var idx: nat := 0;
    var i: nat := from;
    while i < |input|
      invariant from <= i <= |input| && Free(input[from..i], '\n')
      invariant idx < BUF_LEN && buffer[..idx] == Held(input[from..i])
    {
      var c := input[i];
      HeldStep(input, from, i);
      i := i + 1;
      if c == '\r' {
        continue;
      }
      if c == '\n' {
        buffer[idx] := NUL;
        return Some(i);
      }
      idx := Store(buffer, idx, c);
    }
    assert input[from..i] == input[from..];
    return None;
  }

  /** Keep one character, or start over when the buffer is full. */
  method Store(buffer: array<char>, idx: nat, c: char) returns (next: nat)
    requires buffer.Length == BUF_LEN && idx < BUF_LEN
    modifies buffer
    ensures next < BUF_LEN
    ensures buffer[..next] == if idx < BUF_LEN - 1 then old(buffer[..idx]) + [c] else []
  {
    if idx < BUF_LEN - 1 {
      buffer[idx] := c;
      next := idx + 1;
    } else {
      next := 0;
    }
  }

  /** The C string that starts at `at` in the buffer. */
  function TextAt(cells: string, at: nat): string
    requires at <= |cells|
  {
    CString(cells[at..])
  }

  /** A terminator follows `at`. */
  predicate Terminated(cells: string, at: nat) {
    at <= |cells| && at + |TextAt(cells, at)| < |cells|
  }

  lemma {:induction false} CStringOf(t: string, rest: string)
    requires Free(t, NUL)
    ensures CString(t + [NUL] + rest) == t
  {
    if t != [] {
      assert (t + [NUL] + rest)[1..] == t[1..] + [NUL] + rest;
      CStringOf(t[1..], rest);
    }
  }

  /** A C string ends at the first NUL after its start. */
  lemma TextAtIs(cells: string, at: nat, end: nat)
    requires at <= end < |cells| && cells[end] == NUL && Free(cells[at..end], NUL)
    ensures TextAt(cells, at) == cells[at..end] && Terminated(cells, at)
  {
    CStringOf(cells[at..end], cells[end + 1..]);
    assert cells[at..] == cells[at..end] + [NUL] + cells[end + 1..];
  }

  lemma TextAtEnds(cells: string, at: nat)
    requires Terminated(cells, at)
    ensures var end := at + |TextAt(cells, at)|;
            cells[end] == NUL && Free(cells[at..end], NUL) && TextAt(cells, at) == cells[at..end]
  {
    CStringShape(cells[at..]);
    assert cells[at..at + |TextAt(cells, at)|] == cells[at..][..|TextAt(cells, at)|];
  }

  lemma TextAtNext(cells: string, at: nat)
    requires Terminated(cells, at) && cells[at] != NUL
    ensures Terminated(cells, at + 1) && TextAt(cells, at) == [cells[at]] + TextAt(cells, at + 1)
  {
    assert cells[at..][1..] == cells[at + 1..];
  }

  /** Ending a token in place: the token becomes a C string of its own and the
      text after it is untouched. */
  lemma CutInPlace(cells: string, p: nat, q: nat)
    requires p < q < |cells| && Free(cells[p..q], ';') && Free(cells[p..q], NUL)
    requires Terminated(cells, q) && TextAt(cells, p) == cells[p..q] + TextAt(cells, q)
    requires cells[q] == ';' || cells[q] == NUL
    ensures var after := cells[q := NUL];
            && TextAt(after, p) == cells[p..q]
            && (cells[q] == ';' ==> Terminated(after, q + 1))
            && Tokens(TextAt(cells, p)) ==
               [TextAt(after, p)] + (if cells[q] == NUL then [] else Tokens(TextAt(after, q + 1)))
  {
    var after, t := cells[q := NUL], cells[p..q];
    assert after[p..q] == t;
    TextAtIs(after, p, q);
    if cells[q] == NUL {
      assert TextAt(cells, p) == t;
      TokensTake(t, []);
    } else {
      TextAtNext(cells, q);
      assert after[q + 1..] == cells[q + 1..];
      TokensTake(t, TextAt(cells, q + 1));
      assert TextAt(cells, p) == t + [';'] + TextAt(cells, q + 1);
    }
  }

  /** A C string depends only on the buffer up to its terminator. */
  lemma TextAtFrame(a: string, b: string, at: nat, limit: nat)
    requires |a| == |b| && limit <= |a| && a[..limit] == b[..limit]
    requires Behind(a, at, limit)
    ensures TextAt(b, at) == TextAt(a, at) && Behind(b, at, limit)
  {
    TextAtEnds(a, at);
    var end := at + |TextAt(a, at)|;
    assert a[at..end] == a[..limit][at..end] == b[..limit][at..end] == b[at..end];
    assert a[end] == a[..limit][end] == b[..limit][end];
    TextAtIs(b, at, end);
  }

  /** The C string at `at`, terminator included, lies before `limit`. */
  predicate Behind(cells: string, at: nat, limit: nat) {
    limit <= |cells| && Terminated(cells, at) && at + |TextAt(cells, at)| < limit
  }

  // ---------------------------------------------------------------- strtok

  /** `strtok`'s memory between calls: the string being cut and the position the
      next search starts from, `None` once the string is used up. */
  datatype Scan = Scan(cells: string, saved: Option<nat>)

  predicate Ready(s: Scan) {
    s.saved.Some? ==> Terminated(s.cells, s.saved.value)
  }

  /** The text still to be searched. */
  function Left(s: Scan): string
    requires Ready(s)
  {
    if s.saved.Some? then TextAt(s.cells, s.saved.value) else []
  }

  /** Everything before this position has been searched. */
  function Frontier(s: Scan): nat {
    if s.saved.Some? then s.saved.value else |s.cells|
  }

  function SkipTo(cells: string, p: nat): (r: nat)
    requires Terminated(cells, p)
    ensures p <= r && Terminated(cells, r) && cells[r] != ';'
    ensures Tokens(TextAt(cells, r)) == Tokens(TextAt(cells, p))
    decreases |cells| - p
  {
    if cells[p] == ';' then
      TextAtNext(cells, p);
      TokensSkip(TextAt(cells, p));
      SkipTo(cells, p + 1)
    else p
  }

  function EndOf(cells: string, p: nat): (r: nat)
    requires Terminated(cells, p)
    ensures p <= r < |cells| && IsToken(cells, p, r)
    decreases |cells| - p
  {
    if cells[p] == ';' || cells[p] == NUL then p
    else
      TextAtNext(cells, p);
      var r := EndOf(cells, p + 1);
      LongerToken(cells, p, r);
      r
  }

  /** From `p` to `r` there is neither a delimiter nor a terminator; at `r` there
      is one of them. */
  predicate IsToken(cells: string, p: nat, r: nat)
    requires p <= r < |cells|
  {
    && (cells[r] == ';' || cells[r] == NUL) && Terminated(cells, r)
    && Free(cells[p..r], ';') && Free(cells[p..r], NUL)
    && TextAt(cells, p) == cells[p..r] + TextAt(cells, r)
  }

  lemma LongerToken(cells: string, p: nat, r: nat)
    requires p < r < |cells| && Terminated(cells, p) && IsToken(cells, p + 1, r)
    requires cells[p] != ';' && cells[p] != NUL
    ensures IsToken(cells, p, r)
  {
    TextAtNext(cells, p);
    assert cells[p..r] == [cells[p]] + cells[p + 1..r];
    assert cells[p..r] + TextAt(cells, r) == [cells[p]] + (cells[p + 1..r] + TextAt(cells, r));
  }

  /** `strtok(NULL, ";")`: find the next token, end it with a NUL in place, and
      remember where to go on. */
  function NextScan(s: Scan): (r: (Scan, Option<nat>))
    requires Ready(s)
    ensures Ready(r.0) && |r.0.cells| == |s.cells|
  {
    if s.saved.None? then (s, None)
    else
      var p := SkipTo(s.cells, s.saved.value);
      if s.cells[p] == NUL then (Scan(s.cells, None), None)
      else
        var q := EndOf(s.cells, p);
        CutInPlace(s.cells, p, q);
        if s.cells[q] == NUL then (Scan(s.cells, None), Some(p))
        else (Scan(s.cells[q := NUL], Some(q + 1)), Some(p))
  }

  /** A call that finds a token, in terms of its two scans. */
  lemma FoundToken(s: Scan, p: nat, q: nat)
    requires Ready(s) && s.saved.Some? && p == SkipTo(s.cells, s.saved.value) && s.cells[p] != NUL
    requires q == EndOf(s.cells, p)
    ensures NextScan(s) ==
            if s.cells[q] == NUL then (Scan(s.cells, None), Some(p))
            else (Scan(s.cells[q := NUL], Some(q + 1)), Some(p))
  {
  }

  lemma TokenTaken(cells: string, p: nat, q: nat)
    requires p < q < |cells| && IsToken(cells, p, q)
    ensures var after := cells[q := NUL];
            && Behind(after, p, q + 1) && (cells[q] == NUL ==> after == cells)
            && (cells[q] == ';' ==> Terminated(after, q + 1))
            && Tokens(TextAt(cells, p)) ==
               [TextAt(after, p)] + (if cells[q] == NUL then [] else Tokens(TextAt(after, q + 1)))
  {
    CutInPlace(cells, p, q);
    assert cells[p..q] == cells[q := NUL][p..q];
    TextAtIs(cells[q := NUL], p, q);
  }

  lemma LastTakes(cells: string, from: nat, p: nat, q: nat)
    requires Terminated(cells, from) && p == SkipTo(cells, from) && cells[p] != NUL
    requires q == EndOf(cells, p) && cells[q] == NUL
    ensures Behind(cells, p, |cells|) && Tokens(TextAt(cells, from)) == [TextAt(cells, p)] + Tokens([])
  {
    TokenTaken(cells, p, q);
    assert Tokens([]) == [];
  }

  lemma MiddleTakes(cells: string, from: nat, p: nat, q: nat)
    requires Terminated(cells, from) && p == SkipTo(cells, from) && cells[p] != NUL
    requires q == EndOf(cells, p) && cells[q] != NUL
    ensures var after := cells[q := NUL];
            && Behind(after, p, q + 1) && Terminated(after, q + 1)
            && Tokens(TextAt(cells, from)) == [TextAt(after, p)] + Tokens(TextAt(after, q + 1))
  {
    TokenTaken(cells, p, q);
  }

  /** The call takes the first token off the text that is left. */
  lemma NextScanTakes(s: Scan)
    requires Ready(s)
    ensures var (s', token) := NextScan(s);
            && Ready(s') && |s'.cells| == |s.cells|
            && (token.Some? ==> Behind(s'.cells, token.value, Frontier(s')) &&
                                Tokens(Left(s)) == [TextAt(s'.cells, token.value)] + Tokens(Left(s')))
            && (token.None? ==> Tokens(Left(s)) == [] && s'.saved.None?)
  {
    if s.saved.Some? {
      var p := SkipTo(s.cells, s.saved.value);
      if s.cells[p] != NUL {
        var q := EndOf(s.cells, p);
        FoundToken(s, p, q);
        if s.cells[q] == NUL {
          LastTakes(s.cells, s.saved.value, p, q);
        } else {
          MiddleTakes(s.cells, s.saved.value, p, q);
        }
      } else {
        assert TextAt(s.cells, p) == [];
      }
    }
  }

  /** Tokens found earlier stay what they were. */
  lemma NextScanKeeps(s: Scan, at: nat)
    requires Ready(s) && Behind(s.cells, at, Frontier(s))
    ensures var s' := NextScan(s).0;
            Behind(s'.cells, at, Frontier(s')) && TextAt(s'.cells, at) == TextAt(s.cells, at)
  {
    TextAtFrame(s.cells, NextScan(s).0.cells, at, Frontier(s));
  }

  datatype Fields = Fields(p1: Option<nat>, p2: Option<nat>, p3: Option<nat>, extra: Option<nat>)

  function FourCalls(s: Scan): (r: (Scan, Fields))
    requires Ready(s)
    ensures Ready(r.0) && |r.0.cells| == |s.cells|
  {
    var (s1, p1) := NextScan(s);
    var (s2, p2) := NextScan(s1);
    var (s3, p3) := NextScan(s2);
    var (s4, extra) := NextScan(s3);
    (s4, Fields(p1, p2, p3, extra))
  }

  predicate ThreeFields(f: Fields) {
    f.p1.Some? && f.p2.Some? && f.p3.Some? && f.extra.None?
  }

  /** The four calls find three tokens and no fourth exactly when there are three. */
  lemma FourCallsCount(s: Scan)
    requires Ready(s)
    ensures ThreeFields(FourCalls(s).1) <==> |Tokens(Left(s))| == 3
  {
    var (s1, _) := NextScan(s);
    var (s2, _) := NextScan(s1);
    var (s3, _) := NextScan(s2);
    NextScanTakes(s);
    NextScanTakes(s1);
    NextScanTakes(s2);
    NextScanTakes(s3);
  }

  /** The first three results locate the three tokens, also after the later calls. */
  lemma FourCallsPoint(s: Scan)
    requires Ready(s)
    ensures var (end, f) := FourCalls(s);
            ThreeFields(f) ==>
              && Terminated(end.cells, f.p1.value) && Terminated(end.cells, f.p2.value)
              && Terminated(end.cells, f.p3.value)
              && Tokens(Left(s)) ==
                 [TextAt(end.cells, f.p1.value), TextAt(end.cells, f.p2.value), TextAt(end.cells, f.p3.value)]
  {
    if !ThreeFields(FourCalls(s).1) {
      return;
    }
    var (s1, p1) := NextScan(s);
    var (s2, p2) := NextScan(s1);
    var (s3, p3) := NextScan(s2);
    NextScanTakes(s);
    NextScanTakes(s1);
    NextScanTakes(s2);
    NextScanTakes(s3);
    NextScanKeeps(s1, p1.value);
    NextScanKeeps(s2, p1.value);
    NextScanKeeps(s3, p1.value);
    NextScanKeeps(s2, p2.value);
    NextScanKeeps(s3, p2.value);
    NextScanKeeps(s3, p3.value);
  }

  class Tokeniser {
    const buffer: array<char>
    var saved: Option<nat>

    constructor (buffer: array<char>)
      ensures this.buffer == buffer && saved == Some(0)
    {
      this.buffer, saved := buffer, Some(0);
    }

    function View(): Scan
      reads this, buffer
    {
      Scan(buffer[..], saved)
    }

    method SkipDelimiters(from: nat) returns (p: nat)
      requires Terminated(buffer[..], from)
      ensures p == SkipTo(buffer[..], from)
    {
      p := from;
      while buffer[p] == ';'
        invariant Terminated(buffer[..], p) && SkipTo(buffer[..], p) == SkipTo(buffer[..], from)
        decreases buffer.Length - p
      {
        TextAtNext(buffer[..], p);
        p := p + 1;
      }
    }

    method TokenEnd(from: nat) returns (q: nat)
      requires Terminated(buffer[..], from)
      ensures q == EndOf(buffer[..], from)
    {
      q := from;
      while buffer[q] != ';' && buffer[q] != NUL
        invariant Terminated(buffer[..], q) && EndOf(buffer[..], q) == EndOf(buffer[..], from)
        decreases buffer.Length - q
      {
        TextAtNext(buffer[..], q);
        q := q + 1;
      }
    }

    /** One `strtok` call. */
    method Next() returns (token: Option<nat>)
      requires Ready(View())
      modifies this, buffer
      ensures (View(), token) == NextScan(old(View()))
    {
      ghost var s := View();
      if saved.None? {
        return None;
      }
      var p := SkipDelimiters(saved.value);
      if buffer[p] == NUL {
        saved := None;
        return None;
      }
      var q := TokenEnd(p);
      FoundToken(s, p, q);
      if buffer[q] == NUL {
        saved := None;
      } else {
        buffer[q] := NUL;
        saved := Some(q + 1);
        assert buffer[..] == s.cells[q := NUL];
      }
      return Some(p);
    }

    method FindFields() returns (p1: Option<nat>, p2: Option<nat>, p3: Option<nat>, extra: Option<nat>)
      requires Ready(View())
      modifies this, buffer
      ensures (View(), Fields(p1, p2, p3, extra)) == FourCalls(old(View()))
    {
      p1 := Next();
      p2 := Next();
      p3 := Next();
      extra := Next();
    }
  }

  /** `strcpy` out of the buffer: `false` when the next store would be outside the
      destination. */
  method CopyText(dest: array<char>, buffer: array<char>, at: nat) returns (inside: bool)
    requires Terminated(buffer[..], at) && dest != buffer
    modifies dest
    ensures inside <==> |TextAt(buffer[..], at)| < dest.Length
    ensures inside ==> Holds(dest[..], TextAt(buffer[..], at))
    ensures inside ==> forall k | |TextAt(buffer[..], at)| < k < dest.Length :: dest[k] == old(dest[k])
  {
    ghost var cells := buffer[..];
    var i: nat, k: nat := at, 0;
    while k < dest.Length
      invariant k <= dest.Length && buffer[..] == cells && Terminated(cells, i)
      invariant TextAt(cells, at) == dest[..k] + TextAt(cells, i)
      invariant forall j | k <= j < dest.Length :: dest[j] == old(dest[j])
      decreases dest.Length - k
    {
      dest[k] := buffer[i];
      if buffer[i] == NUL {
        assert TextAt(cells, i) == [];
        assert dest[..k] == TextAt(cells, at);
        return true;
      }
      TextAtNext(cells, i);
      assert dest[..k + 1] == dest[..k] + [cells[i]];
      i, k := i + 1, k + 1;
    }
    return false;
  }

  /** The cells start with a C string. */
  predicate Holds(cells: string, text: string) {
    |text| < |cells| && cells[..|text|] == text && cells[|text|] == NUL
  }

  /** What the four calls make of a line. */
  lemma FourCallsConfig(s: Scan)
    requires Ready(s)
    ensures var (end, f) := FourCalls(s);
            && (ThreeFields(f) ==> Terminated(end.cells, f.p1.value) && Terminated(end.cells, f.p2.value) &&
                                   Terminated(end.cells, f.p3.value))
            && FromTokens(Tokens(Left(s))) ==
               if ThreeFields(f)
               then Some(SettingsAt(end.cells, (f.p1.value, f.p2.value, f.p3.value)))
               else None
  {
    FourCallsCount(s);
    FourCallsPoint(s);
  }

  /** The four `strtok` calls on one line: where its three fields start. */
  method FindThree(buffer: array<char>) returns (fields: Option<(nat, nat, nat)>)
    requires Terminated(buffer[..], 0)
    modifies buffer
    ensures fields.Some? ==> Terminated(buffer[..], fields.value.0) && Terminated(buffer[..], fields.value.1) &&
                             Terminated(buffer[..], fields.value.2)
    ensures FromTokens(Tokens(TextAt(old(buffer[..]), 0))) ==
            if fields.Some? then Some(SettingsAt(buffer[..], fields.value)) else None
  {
    var strtok := new Tokeniser(buffer);
    FourCallsConfig(strtok.View());
    assert Left(strtok.View()) == TextAt(buffer[..], 0);
    var p1, p2, p3, extra := strtok.FindFields();
    if p1.None? || p2.None? || p3.None? || extra.Some? {
      return None;
    }
    return Some((p1.value, p2.value, p3.value));
  }

  function SettingsAt(cells: string, at: (nat, nat, nat)): Settings
    requires at.0 <= |cells| && at.1 <= |cells| && at.2 <= |cells|
  {
    Settings(TextAt(cells, at.0), TextAt(cells, at.1), TextAt(cells, at.2))
  }

  lemma HeldIsParsed(cells: string, line: string)
    requires |cells| == BUF_LEN && cells[..|Held(line)|] == Held(line) && cells[|Held(line)|] == NUL
    ensures Terminated(cells, 0) && FromTokens(Tokens(TextAt(cells, 0))) == ParseLine(line)
  {
    var held := Held(line);
    CStringShape(held);
    var end := |CString(held)|;
    assert cells[0..end] == held[..end];
    TextAtIs(cells, 0, end);
  }

  lemma NoMoreLines(input: string, from: nat)
    requires from <= |input| && Free(input[from..], '\n')
    ensures FirstAccepted(LinesOf(input[from..])) == None
  {
    SplitAt(input[from..], [], '\n');
    assert LinesOf(input[from..]) == [];
  }

  lemma NextAccepted(input: string, from: nat, end: nat)
    requires from <= end < |input| && input[end] == '\n' && Free(input[from..end], '\n')
    ensures var first := ParseLine(input[from..end]);
            FirstAccepted(LinesOf(input[from..])) ==
            if first.Some? then first else FirstAccepted(LinesOf(input[end + 1..]))
  {
    NextLine(input, from, end);
    var later := LinesOf(input[end + 1..]);
    assert ([input[from..end]] + later)[1..] == later;
  }

  lemma NextLine(input: string, from: nat, end: nat)
    requires from <= end < |input| && input[end] == '\n' && Free(input[from..end], '\n')
    ensures LinesOf(input[from..]) == [input[from..end]] + LinesOf(input[end + 1..])
  {
    SplitAt(input[from..end], input[end + 1..], '\n');
    assert input[from..] == input[from..end] + ['\n'] + input[end + 1..];
  }

  /** The line in the buffer decides, or else the lines after it. */
  lemma NextOutcome(cells: string, input: string, from: nat, end: nat)
    requires from <= end < |input| && input[end] == '\n' && Free(input[from..end], '\n') && |cells| == BUF_LEN
    requires var held := Held(input[from..end]); cells[..|held|] == held && cells[|held|] == NUL
    ensures Terminated(cells, 0)
    ensures var outcome := Copied(FromTokens(Tokens(TextAt(cells, 0))));
            OutcomeOf(input[from..]) == if outcome.Waiting? then OutcomeOf(input[end + 1..]) else outcome
  {
    NextAccepted(input, from, end);
    HeldIsParsed(cells, input[from..end]);
  }

  /** The three arrays a configuration is copied to. */
  class Config {
    const wifiSsid: array<char>
    const wifiPassword: array<char>
    const serverIp: array<char>

    constructor ()
      ensures Valid() && fresh(wifiSsid) && fresh(wifiPassword) && fresh(serverIp)
    {
      wifiSsid, wifiPassword := new char[SSID_SIZE], new char[PASSWORD_SIZE];
      serverIp := new char[IP_SIZE];
    }

    predicate Valid() {
      && wifiSsid.Length == SSID_SIZE && wifiPassword.Length == PASSWORD_SIZE && serverIp.Length == IP_SIZE
      && wifiSsid != wifiPassword && wifiSsid != serverIp && wifiPassword != serverIp
    }

    /** The three fields read as C strings are these settings. */
    ghost predicate HoldsSettings(c: Settings)
      reads wifiSsid, wifiPassword, serverIp
    {
      Holds(wifiSsid[..], c.wifiSsid) && Holds(wifiPassword[..], c.wifiPassword) && Holds(serverIp[..], c.serverIp)
    }

    /** The three `strcpy` calls, up to the first one that leaves its destination. */
    method CopyFields(buffer: array<char>, at: (nat, nat, nat)) returns (inside: bool)
      requires Valid() && buffer != wifiSsid && buffer != wifiPassword && buffer != serverIp
      requires Terminated(buffer[..], at.0) && Terminated(buffer[..], at.1) && Terminated(buffer[..], at.2)
      modifies wifiSsid, wifiPassword, serverIp
      ensures inside <==> CopiesFit(SettingsAt(buffer[..], at))
      ensures inside ==> HoldsSettings(SettingsAt(buffer[..], at))
    {
      inside := CopyText(wifiSsid, buffer, at.0);
      if inside {
        inside := CopyText(wifiPassword, buffer, at.1);
      }
      if inside {
        inside := CopyText(serverIp, buffer, at.2);
      }
    }

    /** The end of an accepted line. */
    method StoreFields(buffer: array<char>, at: (nat, nat, nat)) returns (outcome: Outcome)
      requires Valid() && buffer != wifiSsid && buffer != wifiPassword && buffer != serverIp
      requires Terminated(buffer[..], at.0) && Terminated(buffer[..], at.1) && Terminated(buffer[..], at.2)
      modifies wifiSsid, wifiPassword, serverIp
      ensures outcome == Copied(Some(SettingsAt(buffer[..], at)))
      ensures outcome.Stored? ==> HoldsSettings(outcome.settings)
    {
      var inside := CopyFields(buffer, at);
      outcome := if inside then Stored(SettingsAt(buffer[..], at)) else Overrun;
    }

    /** The four `strtok` calls on one line, and the copies. */
    method ParseBuffer(buffer: array<char>) returns (outcome: Outcome)
      requires Valid() && buffer != wifiSsid && buffer != wifiPassword && buffer != serverIp
      requires Terminated(buffer[..], 0)
      modifies buffer, wifiSsid, wifiPassword, serverIp
      ensures outcome == Copied(FromTokens(Tokens(TextAt(old(buffer[..]), 0))))
      ensures outcome.Stored? ==> HoldsSettings(outcome.settings)
      ensures outcome.Waiting? ==> unchanged(wifiSsid, wifiPassword, serverIp)
    {
      var fields := FindThree(buffer);
      if fields.None? {
        return Waiting;
      }
      outcome := StoreFields(buffer, fields.value);
    }

    /** One line read and parsed; `next` is where the one after it starts. */
    method TryLine(buffer: array<char>, input: string, from: nat) returns (next: Option<nat>, outcome: Outcome)
      requires Valid() && buffer != wifiSsid && buffer != wifiPassword && buffer != serverIp
      requires buffer.Length == BUF_LEN && from <= |input|
      modifies buffer, wifiSsid, wifiPassword, serverIp
      ensures next.Some? ==> from < next.value <= |input|
      ensures next.None? ==> outcome == OutcomeOf(input[from..]) == Waiting
      ensures next.Some? ==> OutcomeOf(input[from..]) ==
                             if outcome.Waiting? then OutcomeOf(input[next.value..]) else outcome
      ensures outcome.Stored? ==> HoldsSettings(outcome.settings)
      ensures outcome.Waiting? ==> unchanged(wifiSsid, wifiPassword, serverIp)
    {
      next := ReadLine(buffer, input, from);
      if next.None? {
        NoMoreLines(input, from);
        return None, Waiting;
      }
      NextOutcome(buffer[..], input, from, next.value - 1);
      outcome := ParseBuffer(buffer);
    }

    /** `ReadSerialAndParse` on everything the port will ever say: the first line
        with exactly three fields is stored, if its fields fit; `Waiting` means it
        never came, and then nothing was stored. */
    method ReadSerialAndParse(input: string) returns (outcome: Outcome)
      requires Valid()
      modifies wifiSsid, wifiPassword, serverIp
      ensures outcome == OutcomeOf(input)
      ensures outcome.Stored? ==> HoldsSettings(outcome.settings)
      ensures outcome.Waiting? ==> unchanged(wifiSsid, wifiPassword, serverIp)
    {
      var buffer := new char[BUF_LEN];
      var from: nat := 0;
      assert input[0..] == input;
      while true
        invariant from <= |input|
        invariant OutcomeOf(input[from..]) == OutcomeOf(input)
        invariant unchanged(wifiSsid, wifiPassword, serverIp)
        decreases |input| - from
      {
        var next;
        next, outcome := TryLine(buffer, input, from);
        if !outcome.Waiting? || next.None? {
          return;
        }
        from := next.value;
      }
    }
  }
}
