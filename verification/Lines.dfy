/** Line reassembly: what the dashboard makes of a byte stream cut into
    arbitrary reads, and what the firmware's `println` puts on it. */
module Lines {
  import opened Text

  /** Handle the CRLF the ESP32 sends: at most one CR is removed. */
  function StripCR(message: string): string {
    if message != [] && Last(message) == '\r' then Init(message) else message
  }

  function StripAll(ms: seq<string>): (rs: seq<string>)
    ensures |rs| == |ms|
    ensures forall i | 0 <= i < |ms| :: rs[i] == StripCR(ms[i])
  {
    seq(|ms|, i requires 0 <= i < |ms| => StripCR(ms[i]))
  }

  /** The messages in a stream: its LF-terminated lines, CR-stripped. */
  function Messages(stream: string): seq<string> {
    StripAll(Init(Split(stream, '\n')))
  }

  /** What is left after the last LF. */
  function Residue(stream: string): string {
    Last(Split(stream, '\n'))
  }

  lemma ResidueFree(stream: string)
    ensures Free(Residue(stream), '\n')
  {
    PiecesAreFree(stream, '\n');
  }

  /** One turn of the splitter loop: the first line is taken off the front. */
  lemma FirstLine(stream: string, pos: nat)
    requires pos < |stream| && stream[pos] == '\n' && Free(stream[..pos], '\n')
    ensures Messages(stream) == [StripCR(stream[..pos])] + Messages(stream[pos + 1..])
    ensures Residue(stream) == Residue(stream[pos + 1..])
  {
    var rest := stream[pos + 1..];
    SplitAt(stream[..pos], rest, '\n');
    assert stream == stream[..pos] + ['\n'] + rest;
    assert Init(Split(stream, '\n')) == [stream[..pos]] + Init(Split(rest, '\n'));
  }

  lemma NoLine(stream: string)
    requires Free(stream, '\n')
    ensures Messages(stream) == [] && Residue(stream) == stream
  {
    SplitAt(stream, [], '\n');
  }

  /** Keeping only the residue of what came before loses nothing. */
  lemma MessagesConcat(a: string, b: string)
    ensures Messages(a + b) == Messages(a) + Messages(Residue(a) + b)
    ensures Residue(a + b) == Residue(Residue(a) + b)
  {
    SplitConcat(a, b, '\n');
    ResidueFree(a);
    SplitAt(Residue(a), [], '\n');
    SplitConcat(Residue(a), b, '\n');
    GlueLast(Split(a, '\n'), Split(b, '\n'));
  }

  lemma GlueLast(pa: seq<string>, pb: seq<string>)
    requires pa != [] && pb != []
    ensures Glue(pa, pb) == Init(pa) + Glue([Last(pa)], pb)
    ensures StripAll(Init(Glue(pa, pb))) == StripAll(Init(pa)) + StripAll(Init(Glue([Last(pa)], pb)))
    ensures Last(Glue(pa, pb)) == Last(Glue([Last(pa)], pb))
  {
    assert Init([Last(pa)]) == [];
    var tail := Glue([Last(pa)], pb);
    assert Init(Init(pa) + tail) == Init(pa) + Init(tail);
  }

  // ---------------------------------------------------------------- line endings

  /** Lines one after another, each ended by CRLF or by a bare LF. */
  function Ended(lines: seq<string>, crlf: seq<bool>): string
    requires |lines| == |crlf|
    decreases |lines|
  {
    if lines == [] then "" else lines[0] + (if crlf[0] then "\r\n" else "\n") + Ended(lines[1..], crlf[1..])
  }

  /** No line holds an LF, and one ended by a bare LF does not end in CR. */
  predicate Endings(lines: seq<string>, crlf: seq<bool>) {
    && |lines| == |crlf| && AllFree(lines, '\n')
    && forall i | 0 <= i < |lines| :: !crlf[i] && lines[i] != [] ==> lines[i][|lines[i]| - 1] != '\r'
  }

  lemma OneEnding(line: string, crlf: bool, rest: string)
    requires Free(line, '\n') && (!crlf && line != [] ==> line[|line| - 1] != '\r')
    ensures var stream := line + (if crlf then "\r\n" else "\n") + rest;
            Messages(stream) == [line] + Messages(rest) && Residue(stream) == Residue(rest)
  {
    var body := if crlf then line + "\r" else line;
    var stream := line + (if crlf then "\r\n" else "\n") + rest;
    assert stream == body + ['\n'] + rest;
    assert stream[..|body|] == body && stream[|body| + 1..] == rest;
    FirstLine(stream, |body|);
    assert StripCR(body) == line;
  }

  /** Lines come back whole, CR and LF taken off, however each of them was ended. */
  lemma {:induction false} LinesCome(lines: seq<string>, crlf: seq<bool>, tail: string)
    requires Endings(lines, crlf) && Free(tail, '\n')
    ensures Messages(Ended(lines, crlf) + tail) == lines && Residue(Ended(lines, crlf) + tail) == tail
    decreases |lines|
  {
    if lines == [] {
      NoLine(tail);
      assert "" + tail == tail;
    } else {
      LinesCome(lines[1..], crlf[1..], tail);
      OneEnding(lines[0], crlf[0], Ended(lines[1..], crlf[1..]) + tail);
      Regroup(lines[0] + (if crlf[0] then "\r\n" else "\n"), Ended(lines[1..], crlf[1..]), tail);
      assert lines == [lines[0]] + lines[1..];
    }
  }

  /** Every stream is its messages, each with an ending, and then its residue: with
      `LinesCome`, there is one way to read a stream. */
  lemma StreamIsLines(stream: string) returns (crlf: seq<bool>)
    ensures Endings(Messages(stream), crlf) && Free(Residue(stream), '\n')
    ensures stream == Ended(Messages(stream), crlf) + Residue(stream)
  {
    PiecesAreFree(stream, '\n');
    JoinSplit(stream, '\n');
    crlf := JoinIsEnded(Split(stream, '\n'));
  }

  lemma {:induction false} JoinIsEnded(ps: seq<string>) returns (crlf: seq<bool>)
    requires ps != [] && AllFree(ps, '\n')
    ensures |crlf| == |ps| - 1 && Endings(StripAll(Init(ps)), crlf)
    ensures Join(ps, '\n') == Ended(StripAll(Init(ps)), crlf) + Last(ps)
    decreases |ps|
  {
    if |ps| == 1 {
      crlf := [];
      assert "" + ps[0] == ps[0];
    } else {
      var first := ps[0] != [] && Last(ps[0]) == '\r';
      var later := JoinIsEnded(ps[1..]);
      crlf := [first] + later;
      EndedCons(StripCR(ps[0]), first, StripAll(Init(ps[1..])), later);
      StripFirst(ps);
      assert ps[0] + ['\n'] == StripCR(ps[0]) + (if first then "\r\n" else "\n");
      Regroup(ps[0] + ['\n'], Ended(StripAll(Init(ps[1..])), later), Last(ps[1..]));
    }
  }

  lemma StripFirst(ps: seq<string>)
    requires |ps| > 1
    ensures StripAll(Init(ps)) == [StripCR(ps[0])] + StripAll(Init(ps[1..]))
  {
  }

  lemma EndedCons(line: string, first: bool, lines: seq<string>, crlf: seq<bool>)
    requires Endings(lines, crlf) && Free(line, '\n') && (!first && line != [] ==> line[|line| - 1] != '\r')
    ensures Endings([line] + lines, [first] + crlf)
    ensures Ended([line] + lines, [first] + crlf) ==
            line + (if first then "\r\n" else "\n") + Ended(lines, crlf)
  {
  }

  function Concat(chunks: seq<string>): string {
    if chunks == [] then "" else chunks[0] + Concat(chunks[1..])
  }

  /** The splitter fed chunk by chunk, keeping its buffer between reads. */
  function Feed(buffer: string, chunks: seq<string>): (seq<string>, string)
    decreases |chunks|
  {
    if chunks == [] then ([], buffer)
    else
      var (later, residue) := Feed(Residue(buffer + chunks[0]), chunks[1..]);
      (Messages(buffer + chunks[0]) + later, residue)
  }

  lemma FeedStep(buffer: string, chunks: seq<string>)
    requires chunks != []
    ensures var later := Feed(Residue(buffer + chunks[0]), chunks[1..]);
            Feed(buffer, chunks) == (Messages(buffer + chunks[0]) + later.0, later.1)
  {
  }

  /** The messages depend on the concatenated stream only, not on how it was cut
      into reads. */
  lemma {:induction false} ChunkIndependent(buffer: string, chunks: seq<string>)
    requires Free(buffer, '\n')
    ensures Feed(buffer, chunks) == (Messages(buffer + Concat(chunks)), Residue(buffer + Concat(chunks)))
    decreases |chunks|
  {
    if chunks == [] {
      NoLine(buffer);
      assert buffer + "" == buffer;
    } else {
      var head, rest := buffer + chunks[0], Concat(chunks[1..]);
      ResidueFree(head);
      ChunkIndependent(Residue(head), chunks[1..]);
      FeedStep(buffer, chunks);
      MessagesConcat(head, rest);
      Regroup(buffer, chunks[0], rest);
    }
  }

  /** The stream `println` makes of a list of frames. */
  function Transmitted(frames: seq<string>): string {
    if frames == [] then "" else frames[0] + "\r\n" + Transmitted(frames[1..])
  }

  lemma TransmittedOne(frame: string)
    ensures Residue(frame + "\r\n") == ""
    ensures Free(frame, '\n') ==> Messages(frame + "\r\n") == [frame]
    ensures !Free(frame, '\n') ==> |Messages(frame + "\r\n")| >= 2
  {
    var pf, pt := Split(frame, '\n'), Split("\r\n", '\n');
    SplitAt("\r", "", '\n');
    assert "\r\n" == "\r" + ['\n'] + "";
    assert pt == ["\r", ""];
    SplitConcat(frame, "\r\n", '\n');
    assert Split(frame + "\r\n", '\n') == Init(pf) + [Last(pf) + "\r"] + [""];
    assert Init(Split(frame + "\r\n", '\n')) == Init(pf) + [Last(pf) + "\r"];
    if Free(frame, '\n') {
      SplitAt(frame, "", '\n');
      assert StripCR(frame + "\r") == frame;
    } else {
      SingleIffFree(frame, '\n');
    }
  }

  lemma AllFreeCons(frame: string, rest: seq<string>, c: char)
    ensures AllFree([frame] + rest, c) <==> Free(frame, c) && AllFree(rest, c)
  {
    assert forall i | 0 <= i < |rest| :: ([frame] + rest)[i + 1] == rest[i];
    assert ([frame] + rest)[0] == frame;
  }

  lemma TransmittedCons(frame: string, rest: string)
    ensures Messages(frame + "\r\n" + rest) == Messages(frame + "\r\n") + Messages(rest)
    ensures Residue(frame + "\r\n" + rest) == Residue(rest)
  {
    TransmittedOne(frame);
    MessagesConcat(frame + "\r\n", rest);
    assert "" + rest == rest;
  }

  /** The splitter inverts the sender exactly when no frame holds an LF. */
  lemma {:induction false} SenderInverse(frames: seq<string>)
    ensures Residue(Transmitted(frames)) == ""
    ensures |Messages(Transmitted(frames))| >= |frames|
    ensures Messages(Transmitted(frames)) == frames <==> AllFree(frames, '\n')
    ensures !AllFree(frames, '\n') ==> |Messages(Transmitted(frames))| > |frames|
  {
    if frames == [] {
      NoLine("");
    } else {
      SenderInverse(frames[1..]);
      TransmittedOne(frames[0]);
      TransmittedCons(frames[0], Transmitted(frames[1..]));
      AllFreeCons(frames[0], frames[1..], '\n');
      CountsUp(frames[0], frames[1..], Messages(frames[0] + "\r\n"), Messages(Transmitted(frames[1..])),
               Free(frames[0], '\n'), AllFree(frames[1..], '\n'));
      assert frames == [frames[0]] + frames[1..];
    }
  }

  lemma CountsUp(first: string, rest: seq<string>, a: seq<string>, b: seq<string>, freeFirst: bool, freeRest: bool)
    requires if freeFirst then a == [first] else |a| >= 2
    requires if freeRest then b == rest else |b| > |rest|
    ensures a + b == [first] + rest <==> freeFirst && freeRest
    ensures |a + b| >= |rest| + if freeFirst && freeRest then 1 else 2
  {
  }
}
