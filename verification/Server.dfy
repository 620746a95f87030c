/** The dashboard server as a state machine over completions: accept, read and
    timer handlers run one at a time, in any order the proactor likes. */
module Server {
  import opened Words
  import opened Text
  import opened Protocol
  import opened Lines

  /** `static_cast<uint32_t>(SENSOR_READ_PERIOD * 1.5)` milliseconds. */
  const TIMEOUT_TIME: nat := SENSOR_READ_PERIOD * 3 / 2

  datatype Event = Connected | Disconnected | Message(text: string)

  /** An outstanding `async_read_some` and the socket it was started on. */
  datatype PendingRead = PendingRead(socket: nat, cancelled: bool)

  /** An outstanding `async_wait`. A wait cancelled after it had expired still
      completes successfully. */
  datatype Wait = Wait(deadline: nat, cancelled: bool, expired: bool)

  datatype State = State(
    running: bool,        // m_Running
    stopped: bool,        // m_Context is stopped: no handler runs any more
    terminated: bool,     // an exception left a handler
    accepts: nat,         // outstanding async_accept operations
    live: Option<nat>,    // m_Socket
    sockets: nat,         // sockets accepted so far
    pending: seq<PendingRead>,
    waits: seq<Wait>,
    lastPacket: nat,      // m_LastPacket
    stringBuffer: string, // m_StringBuffer
    events: seq<Event>,   // everything pushed to m_MessageQueue
    received: string)     // every byte received, over all connections

  /** `Server::Make` */
  const STARTED: State := State(true, false, false, 1, None, 0, [], [], 0, "", [], "")

  /** What happens next. `endpointKnown` tells whether the accepted socket can name
      its peer: the accept handler asks before it looks at anything else, and an
      exception there is not caught. `Stop` runs on another thread; its three steps
      fall between handlers, in this order, any handlers between them. */
  datatype Completion =
    | AcceptDone(now: nat, ok: bool, endpointKnown: bool)
    | ReadDone(index: nat, now: nat, ok: bool, bytes: string)
    | WaitDone(index: nat, now: nat, ok: bool)
    | StopFlag(now: nat)
    | StopDrop(now: nat)
    | StopContext(now: nat)

  /** Which completions can run. A read on a cancelled or closed socket completes
      with an error; a timer wait succeeds once its deadline has passed, unless it
      was cancelled before that. */
  predicate Legal(s: State, c: Completion) {
    !s.terminated &&
    match c
    case AcceptDone(_, _, _) => !s.stopped && s.accepts > 0
    case ReadDone(i, _, ok, _) => !s.stopped && i < |s.pending| && (ok ==> !s.pending[i].cancelled)
    case WaitDone(i, now, ok) =>
      !s.stopped && i < |s.waits| &&
      (if ok then s.waits[i].deadline <= now && (s.waits[i].cancelled ==> s.waits[i].expired)
       else s.waits[i].cancelled && !s.waits[i].expired)
    case StopFlag(_) => true
    case StopDrop(_) => !s.running
    case StopContext(_) => !s.running
  }

  // ---------------------------------------------------------------- steps

  function CancelReads(pending: seq<PendingRead>, socket: nat): (rs: seq<PendingRead>)
    ensures |rs| == |pending|
  {
    seq(|pending|, i requires 0 <= i < |pending| =>
      if pending[i].socket == socket then pending[i].(cancelled := true) else pending[i])
  }

  function CancelWait(w: Wait, now: nat): Wait {
    if w.cancelled then w else w.(cancelled := true, expired := w.deadline <= now)
  }

  function CancelWaits(waits: seq<Wait>, now: nat): (ws: seq<Wait>)
    ensures |ws| == |waits|
  {
    seq(|waits|, i requires 0 <= i < |waits| => CancelWait(waits[i], now))
  }

  function Remove<T>(xs: seq<T>, i: nat): seq<T>
    requires i < |xs|
  {
    xs[..i] + xs[i + 1..]
  }

  /** `StartTimeoutCheck`: setting the expiry cancels the waits under way. */
  function Armed(s: State, now: nat): State {
    s.(waits := CancelWaits(s.waits, now) + [Wait(now + TIMEOUT_TIME, false, false)])
  }

  /** `ReceiveData` */
  function Receiving(s: State): State
    requires s.live.Some?
  {
    s.(pending := s.pending + [PendingRead(s.live.value, false)])
  }

  /** `Disconnect` */
  function Dropped(s: State, now: nat): State {
    var s1 := s.(events := s.events + [Disconnected]);
    if s.live.None? then s1
    else
      s1.(pending := CancelReads(s.pending, s.live.value), waits := CancelWaits(s.waits, now), live := None,
          accepts := if s.running then s.accepts + 1 else s.accepts)
  }

  function MessageEvents(ms: seq<string>): (es: seq<Event>)
    ensures |es| == |ms|
    ensures forall i | 0 <= i < |ms| :: es[i] == Message(ms[i])
  {
    seq(|ms|, i requires 0 <= i < |ms| => Message(ms[i]))
  }

  function Accepted(s: State, now: nat): State {
    var s1 := Receiving(s.(live := Some(s.sockets), sockets := s.sockets + 1));
    var s2 := Armed(s1.(lastPacket := now), now);
    s2.(events := s2.events + [Connected])
  }

  function Appended(s: State, bytes: string): State {
    var text := s.stringBuffer + bytes;
    s.(stringBuffer := Residue(text), events := s.events + MessageEvents(Messages(text)),
       received := s.received + bytes)
  }

  function Late(s: State, now: nat): bool {
    now - s.lastPacket > TIMEOUT_TIME
  }

  function OnAccept(s: State, now: nat, ok: bool, endpointKnown: bool): State
    requires s.accepts > 0
  {
    var s1 := s.(accepts := s.accepts - 1);
    if !endpointKnown then s1.(terminated := true)
    else if ok then Accepted(s1, now) else s1.(accepts := s1.accepts + 1)
  }

  /** Re-arming without a socket would end the server; `ReadIsLive` shows that it
      never happens. */
  function OnRead(s: State, i: nat, now: nat, ok: bool, bytes: string): State
    requires i < |s.pending|
  {
    var s1 := s.(pending := Remove(s.pending, i));
    if ok && s.live.None? then s1.(terminated := true)
    else if ok then Receiving(Appended(s1, bytes).(lastPacket := now)) else Dropped(s1, now)
  }

  function OnWait(s: State, i: nat, now: nat, ok: bool): State
    requires i < |s.waits|
  {
    var s1 := s.(waits := Remove(s.waits, i));
    if !ok then s1 else if Late(s, now) then Dropped(s1, now) else Armed(s1, now)
  }

  function Step(s: State, c: Completion): State
    requires Legal(s, c)
  {
    match c
    case AcceptDone(now, ok, endpointKnown) => OnAccept(s, now, ok, endpointKnown)
    case ReadDone(i, now, ok, bytes) => OnRead(s, i, now, ok, bytes)
    case WaitDone(i, now, ok) => OnWait(s, i, now, ok)
    case StopFlag(_) => s.(running := false)
    case StopDrop(now) => Dropped(s, now)
    case StopContext(_) => s.(stopped := true)
  }

  // ---------------------------------------------------------------- invariant

  /** The sockets of the reads nobody cancelled. */
  function ActiveReads(pending: seq<PendingRead>): seq<nat> {
    if pending == [] then []
    else ActiveReads(Init(pending)) + (if Last(pending).cancelled then [] else [Last(pending).socket])
  }

  /** The deadlines of the waits nobody cancelled. */
  function ActiveWaits(waits: seq<Wait>): seq<nat> {
    if waits == [] then []
    else ActiveWaits(Init(waits)) + (if Last(waits).cancelled then [] else [Last(waits).deadline])
  }

  /** A prefix of `Disconnected* (Connected Message* Disconnected+)*`, said by
      neighbours: a connection follows the start or a disconnection, a message
      follows a connection or a message. */
  predicate WellFormed(events: seq<Event>) {
    forall i | 0 <= i < |events| :: Follows(events, i)
  }

  predicate Follows(events: seq<Event>, i: nat)
    requires i < |events|
  {
    match events[i]
    case Connected => i == 0 || events[i - 1].Disconnected?
    case Message(_) => i > 0 && !events[i - 1].Disconnected?
    case Disconnected => true
  }

  predicate Open(events: seq<Event>) {
    events != [] && !Last(events).Disconnected?
  }

  /** The texts of the messages among the events. */
  function Texts(events: seq<Event>): seq<string> {
    if events == [] then []
    else Texts(Init(events)) + (if Last(events).Message? then [Last(events).text] else [])
  }

  /** One connection at a time: while running, an accept is outstanding exactly when
      no client is connected; afterwards there may be neither. */
  predicate OneClient(s: State) {
    s.terminated || s.accepts == (if s.live.Some? then 0 else 1) ||
    (!s.running && s.live.None? && s.accepts == 0)
  }

  /** The live socket has one un-cancelled read, no other has any. */
  predicate ReadsOk(pending: seq<PendingRead>, live: Option<nat>) {
    ActiveReads(pending) == if live.Some? then [live.value] else []
  }

  predicate WaitsOk(waits: seq<Wait>, live: Option<nat>) {
    |ActiveWaits(waits)| <= 1 && (live.Some? ==> |ActiveWaits(waits)| == 1)
  }

  /** The events are in order and say whether a client is connected. */
  predicate EventsOk(events: seq<Event>, live: Option<nat>) {
    WellFormed(events) && (live.Some? <==> Open(events))
  }

  /** The messages are the lines received, the buffer is what follows them. */
  predicate LinesOk(events: seq<Event>, buffer: string, received: string) {
    Texts(events) == Messages(received) && buffer == Residue(received)
  }

  predicate Inv(s: State) {
    && OneClient(s) && ReadsOk(s.pending, s.live) && WaitsOk(s.waits, s.live)
    && EventsOk(s.events, s.live) && LinesOk(s.events, s.stringBuffer, s.received)
  }

  lemma {:induction false} ActiveReadsConcat(a: seq<PendingRead>, b: seq<PendingRead>)
    ensures ActiveReads(a + b) == ActiveReads(a) + ActiveReads(b)
  {
    if b == [] {
      assert a + b == a;
    } else {
      assert Init(a + b) == a + Init(b) && Last(a + b) == Last(b);
      ActiveReadsConcat(a, Init(b));
    }
  }

  lemma {:induction false} ActiveWaitsConcat(a: seq<Wait>, b: seq<Wait>)
    ensures ActiveWaits(a + b) == ActiveWaits(a) + ActiveWaits(b)
  {
    if b == [] {
      assert a + b == a;
    } else {
      assert Init(a + b) == a + Init(b) && Last(a + b) == Last(b);
      ActiveWaitsConcat(a, Init(b));
    }
  }

  lemma DropMiddle<T>(a: seq<T>, x: seq<T>, b: seq<T>)
    requires |x| <= 1
    ensures x == [] ==> a + x + b == a + b
    ensures x != [] && |a + x + b| <= 1 ==> a + x + b == x && a + b == []
  {
  }

  lemma RemoveRead(xs: seq<PendingRead>, i: nat)
    requires i < |xs|
    ensures xs[i].cancelled ==> ActiveReads(Remove(xs, i)) == ActiveReads(xs)
    ensures !xs[i].cancelled && |ActiveReads(xs)| <= 1 ==>
              ActiveReads(xs) == [xs[i].socket] && ActiveReads(Remove(xs, i)) == []
  {
    var x := [xs[i]];
    assert Init(x) == [];
    assert xs == xs[..i] + x + xs[i + 1..];
    ActiveReadsConcat(xs[..i] + x, xs[i + 1..]);
    ActiveReadsConcat(xs[..i], x);
    ActiveReadsConcat(xs[..i], xs[i + 1..]);
    DropMiddle(ActiveReads(xs[..i]), ActiveReads(x), ActiveReads(xs[i + 1..]));
  }

  lemma RemoveWait(xs: seq<Wait>, i: nat)
    requires i < |xs|
    ensures xs[i].cancelled ==> ActiveWaits(Remove(xs, i)) == ActiveWaits(xs)
    ensures !xs[i].cancelled && |ActiveWaits(xs)| <= 1 ==>
              ActiveWaits(xs) == [xs[i].deadline] && ActiveWaits(Remove(xs, i)) == []
  {
    var x := [xs[i]];
    assert Init(x) == [];
    assert xs == xs[..i] + x + xs[i + 1..];
    ActiveWaitsConcat(xs[..i] + x, xs[i + 1..]);
    ActiveWaitsConcat(xs[..i], x);
    ActiveWaitsConcat(xs[..i], xs[i + 1..]);
    DropMiddle(ActiveWaits(xs[..i]), ActiveWaits(x), ActiveWaits(xs[i + 1..]));
  }

  lemma {:induction false} CancelledReads(pending: seq<PendingRead>, socket: nat)
    requires forall k | 0 <= k < |ActiveReads(pending)| :: ActiveReads(pending)[k] == socket
    ensures ActiveReads(CancelReads(pending, socket)) == []
  {
    if pending != [] {
      var active := ActiveReads(Init(pending));
      forall k | 0 <= k < |active| ensures active[k] == socket {
        assert ActiveReads(pending)[k] == active[k];
      }
      if !Last(pending).cancelled {
        assert Last(ActiveReads(pending)) == Last(pending).socket;
      }
      CancelledReads(Init(pending), socket);
      assert Init(CancelReads(pending, socket)) == CancelReads(Init(pending), socket);
    }
  }

  lemma {:induction false} CancelledWaits(waits: seq<Wait>, now: nat)
    ensures ActiveWaits(CancelWaits(waits, now)) == []
  {
    if waits != [] {
      CancelledWaits(Init(waits), now);
      assert Init(CancelWaits(waits, now)) == CancelWaits(Init(waits), now);
    }
  }

  lemma ArmedWait(waits: seq<Wait>, now: nat)
    ensures ActiveWaits(CancelWaits(waits, now) + [Wait(now + TIMEOUT_TIME, false, false)]) == [now + TIMEOUT_TIME]
  {
    var w := Wait(now + TIMEOUT_TIME, false, false);
    CancelledWaits(waits, now);
    ActiveWaitsConcat(CancelWaits(waits, now), [w]);
    assert Init([w]) == [];
    assert ActiveWaits([w]) == [now + TIMEOUT_TIME];
  }

  lemma AddEvent(events: seq<Event>, e: Event)
    requires WellFormed(events)
    requires e.Connected? ==> !Open(events)
    requires e.Message? ==> Open(events)
    ensures WellFormed(events + [e]) && (Open(events + [e]) <==> !e.Disconnected?)
    ensures Texts(events + [e]) == Texts(events) + (if e.Message? then [e.text] else [])
  {
    assert Init(events + [e]) == events;
    forall i | 0 <= i < |events + [e]| ensures Follows(events + [e], i) {
      if i < |events| {
        assert Follows(events, i);
      }
    }
  }

  lemma MoreEvents(events: seq<Event>, ms: seq<string>, m: string)
    ensures events + MessageEvents(ms + [m]) == events + MessageEvents(ms) + [Message(m)]
  {
    assert MessageEvents(ms + [m]) == MessageEvents(ms) + [Message(m)];
  }

  lemma OneLine(queue: seq<Event>, buffer: string, pos: nat)
    requires pos < |buffer| && buffer[pos] == '\n' && Free(buffer[..pos], '\n')
    ensures queue + MessageEvents(Messages(buffer)) ==
            queue + [Message(StripCR(buffer[..pos]))] + MessageEvents(Messages(buffer[pos + 1..]))
    ensures Residue(buffer) == Residue(buffer[pos + 1..])
  {
    FirstLine(buffer, pos);
    var m, rest := StripCR(buffer[..pos]), Messages(buffer[pos + 1..]);
    PrependEvent(queue, m, rest);
  }

  lemma PrependEvent(queue: seq<Event>, m: string, rest: seq<string>)
    ensures queue + MessageEvents([m] + rest) == queue + [Message(m)] + MessageEvents(rest)
  {
    assert MessageEvents([m] + rest) == [Message(m)] + MessageEvents(rest);
  }

  lemma {:induction false} AddMessages(events: seq<Event>, ms: seq<string>)
    requires WellFormed(events) && Open(events)
    ensures WellFormed(events + MessageEvents(ms)) && Open(events + MessageEvents(ms))
    ensures Texts(events + MessageEvents(ms)) == Texts(events) + ms
  {
    if ms == [] {
      assert events + MessageEvents(ms) == events;
    } else {
      var before := events + MessageEvents(Init(ms));
      AddMessages(events, Init(ms));
      AddEvent(before, Message(Last(ms)));
      assert ms == Init(ms) + [Last(ms)];
      assert events + MessageEvents(ms) == before + [Message(Last(ms))] by {
        MoreEvents(events, Init(ms), Last(ms));
      }
      assert Texts(events) + ms == Texts(events) + Init(ms) + [Last(ms)];
    }
  }

  /** A successful read always belongs to the live socket, so `ReceiveData` finds
      `m_Socket` set. */
  lemma ReadIsLive(s: State, c: Completion)
    requires Inv(s) && Legal(s, c)
    ensures c.ReadDone? && c.ok ==> s.live == Some(s.pending[c.index].socket)
  {
    if c.ReadDone? && c.ok {
      RemoveRead(s.pending, c.index);
    }
  }

  lemma DropReads(pending: seq<PendingRead>, socket: nat)
    requires ReadsOk(pending, Some(socket)) || ReadsOk(pending, None)
    ensures ReadsOk(CancelReads(pending, socket), None)
  {
    CancelledReads(pending, socket);
  }

  lemma DropEvents(events: seq<Event>, live: Option<nat>, buffer: string, received: string)
    requires EventsOk(events, live) && LinesOk(events, buffer, received)
    ensures EventsOk(events + [Disconnected], None) && LinesOk(events + [Disconnected], buffer, received)
  {
    AddEvent(events, Disconnected);
  }

  lemma DroppedInv(s: State, now: nat)
    requires OneClient(s) && (ReadsOk(s.pending, s.live) || ReadsOk(s.pending, None))
    requires |ActiveWaits(s.waits)| <= 1 && EventsOk(s.events, s.live)
    requires LinesOk(s.events, s.stringBuffer, s.received)
    ensures Inv(Dropped(s, now)) && Dropped(s, now).live.None?
  {
    DropEvents(s.events, s.live, s.stringBuffer, s.received);
    if s.live.Some? {
      DropReads(s.pending, s.live.value);
      CancelledWaits(s.waits, now);
    }
  }

  lemma AcceptInv(s: State, now: nat, ok: bool, endpointKnown: bool)
    requires Inv(s) && Legal(s, AcceptDone(now, ok, endpointKnown))
    ensures Inv(OnAccept(s, now, ok, endpointKnown))
  {
    if endpointKnown && ok {
      AcceptedInv(s.(accepts := s.accepts - 1), now);
    } else if endpointKnown {
      assert OnAccept(s, now, ok, endpointKnown) == s;
    } else {
      TerminatedInv(s, s.accepts - 1);
    }
  }

  lemma TerminatedInv(s: State, accepts: nat)
    requires Inv(s)
    ensures Inv(s.(accepts := accepts, terminated := true))
  {
  }

  lemma AcceptedInv(s: State, now: nat)
    requires s.live.None? && s.accepts == 0 && ReadsOk(s.pending, None) && EventsOk(s.events, None)
    requires LinesOk(s.events, s.stringBuffer, s.received)
    ensures Inv(Accepted(s, now))
  {
    OneMoreRead(s.pending, s.sockets);
    ArmedWait(s.waits, now);
    AddEvent(s.events, Connected);
  }

  lemma OneMoreRead(pending: seq<PendingRead>, socket: nat)
    requires ReadsOk(pending, None)
    ensures ReadsOk(pending + [PendingRead(socket, false)], Some(socket))
  {
    var r := PendingRead(socket, false);
    ActiveReadsConcat(pending, [r]);
    assert Init([r]) == [] && Last([r]) == r;
    assert ActiveReads([r]) == [socket];
  }

  lemma MoreLines(events: seq<Event>, live: Option<nat>, buffer: string, received: string, bytes: string)
    requires EventsOk(events, live) && live.Some? && LinesOk(events, buffer, received)
    ensures var events' := events + MessageEvents(Messages(buffer + bytes));
            EventsOk(events', live) && LinesOk(events', Residue(buffer + bytes), received + bytes)
  {
    MessagesConcat(received, bytes);
    AddMessages(events, Messages(buffer + bytes));
  }

  lemma ReadInv(s: State, i: nat, now: nat, bytes: string)
    requires Inv(s) && Legal(s, ReadDone(i, now, true, bytes)) && s.live.Some?
    ensures Inv(OnRead(s, i, now, true, bytes))
  {
    RemoveRead(s.pending, i);
    OneMoreRead(Remove(s.pending, i), s.live.value);
    MoreLines(s.events, s.live, s.stringBuffer, s.received, bytes);
  }

  lemma FailedReadInv(s: State, i: nat, now: nat)
    requires Inv(s) && i < |s.pending|
    ensures Inv(Dropped(s.(pending := Remove(s.pending, i)), now))
  {
    RemovedReads(s.pending, i, s.live);
    DroppedInv(s.(pending := Remove(s.pending, i)), now);
  }

  lemma RemovedReads(pending: seq<PendingRead>, i: nat, live: Option<nat>)
    requires i < |pending| && ReadsOk(pending, live)
    ensures ReadsOk(Remove(pending, i), live) || ReadsOk(Remove(pending, i), None)
  {
    RemoveRead(pending, i);
  }

  /** Every handler keeps the invariant, in every order. */
  lemma StepInv(s: State, c: Completion)
    requires Inv(s) && Legal(s, c)
    ensures Inv(Step(s, c))
  {
    match c {
      case AcceptDone(now, ok, endpointKnown) =>
        AcceptInv(s, now, ok, endpointKnown);
      case ReadDone(i, now, ok, bytes) =>
        ReadIsLive(s, c);
        if ok {
          ReadInv(s, i, now, bytes);
        } else {
          FailedReadInv(s, i, now);
        }
      case WaitDone(i, now, ok) =>
        WaitInv(s, i, now, ok);
      case StopDrop(now) =>
        DroppedInv(s, now);
      case _ =>
    }
  }

  lemma WaitInv(s: State, i: nat, now: nat, ok: bool)
    requires Inv(s) && Legal(s, WaitDone(i, now, ok))
    ensures Inv(OnWait(s, i, now, ok))
  {
    RemoveWait(s.waits, i);
    var s1 := s.(waits := Remove(s.waits, i));
    if ok && Late(s, now) {
      DroppedInv(s1, now);
    } else if ok {
      ArmedWait(s1.waits, now);
    }
  }

  // ---------------------------------------------------------------- runs

  /** A run: each completion is one that can happen in the state it meets. */
  predicate Possible(s: State, cs: seq<Completion>)
    decreases |cs|
  {
    cs == [] || (Legal(s, cs[0]) && Possible(Step(s, cs[0]), cs[1..]))
  }

  function Run(s: State, cs: seq<Completion>): State
    requires Possible(s, cs)
    decreases |cs|
  {
    if cs == [] then s else Run(Step(s, cs[0]), cs[1..])
  }

  lemma {:induction false} RunInv(s: State, cs: seq<Completion>)
    requires Inv(s) && Possible(s, cs)
    ensures Inv(Run(s, cs))
    decreases |cs|
  {
    if cs != [] {
      StepInv(s, cs[0]);
      RunInv(Step(s, cs[0]), cs[1..]);
    }
  }

  lemma StartedInv()
    ensures Inv(STARTED)
  {
    NoLine("");
  }

  /** The traffic light of the event stream: idle, connected, or an event out of
      place. */
  datatype Light = Idle | Connection | Broken

  function Watch(light: Light, e: Event): Light {
    match (light, e)
    case (Broken, _) => Broken
    case (_, Disconnected) => Idle
    case (Idle, Connected) => Connection
    case (Connection, Message(_)) => Connection
    case _ => Broken
  }

  function WatchAll(events: seq<Event>): Light {
    if events == [] then Idle else Watch(WatchAll(Init(events)), Last(events))
  }

  /** The neighbour rule accepts exactly what the automaton of
      `Disconnected* (Connected Message* Disconnected+)*` accepts. */
  lemma {:induction false} WellFormedIsRegular(events: seq<Event>)
    ensures WellFormed(events) <==> !WatchAll(events).Broken?
    ensures WellFormed(events) ==> (WatchAll(events).Connection? <==> Open(events))
  {
    if events != [] {
      var before := Init(events);
      WellFormedIsRegular(before);
      forall i | 0 <= i < |before| ensures Follows(before, i) == Follows(events, i) {
      }
      assert WellFormed(events) <==> WellFormed(before) && Follows(events, |before|);
    }
  }

  function BytesOf(c: Completion): string {
    if c.ReadDone? && c.ok then c.bytes else []
  }

  /** The bytes of the successful reads, read off the completions alone. */
  function AllBytes(cs: seq<Completion>): string {
    if cs == [] then [] else BytesOf(cs[0]) + AllBytes(cs[1..])
  }

  function HeardAt(before: nat, c: Completion): nat {
    if (c.ReadDone? && c.ok) || (c.AcceptDone? && c.ok && c.endpointKnown) then c.now else before
  }

  /** The time of the last packet or connection, read off the completions alone. */
  function LastHeard(before: nat, cs: seq<Completion>): nat
    decreases |cs|
  {
    if cs == [] then before else LastHeard(HeardAt(before, cs[0]), cs[1..])
  }

  lemma {:induction false} RunHears(s: State, cs: seq<Completion>)
    requires Inv(s) && Possible(s, cs)
    ensures Run(s, cs).received == s.received + AllBytes(cs)
    ensures Run(s, cs).lastPacket == LastHeard(s.lastPacket, cs)
    decreases |cs|
  {
    if cs != [] {
      var next := Step(s, cs[0]);
      StepInv(s, cs[0]);
      ReadIsLive(s, cs[0]);
      StepHears(s, cs[0]);
      RunHears(next, cs[1..]);
      assert Run(s, cs) == Run(next, cs[1..]);
      Regroup(s.received, BytesOf(cs[0]), AllBytes(cs[1..]));
    }
  }

  lemma StepHears(s: State, c: Completion)
    requires Legal(s, c) && (c.ReadDone? && c.ok ==> s.live.Some?)
    ensures Step(s, c).received == s.received + BytesOf(c)
    ensures Step(s, c).lastPacket == HeardAt(s.lastPacket, c)
  {
    NothingHeard(s.received);
    if c.ReadDone? {
      ReadHears(s, c.index, c.now, c.ok, c.bytes);
    }
  }

  lemma NothingHeard(received: string)
    ensures received + [] == received
  {
  }

  lemma ReadHears(s: State, i: nat, now: nat, ok: bool, bytes: string)
    requires i < |s.pending| && (ok ==> s.live.Some?)
    ensures OnRead(s, i, now, ok, bytes).received == if ok then s.received + bytes else s.received
    ensures OnRead(s, i, now, ok, bytes).lastPacket == if ok then now else s.lastPacket
  {
  }

  predicate Nameless(c: Completion) {
    c.AcceptDone? && !c.endpointKnown
  }

  /** Some accepted socket could not name its peer. */
  predicate PeerUnknown(cs: seq<Completion>) {
    exists i | 0 <= i < |cs| :: Nameless(cs[i])
  }

  lemma PeerUnknownFirst(cs: seq<Completion>)
    requires cs != []
    ensures PeerUnknown(cs) <==> Nameless(cs[0]) || PeerUnknown(cs[1..])
  {
    assert forall i | 0 < i < |cs| :: cs[i] == cs[1..][i - 1];
    if PeerUnknown(cs[1..]) {
      var i :| 0 <= i < |cs[1..]| && Nameless(cs[1..][i]);
      assert Nameless(cs[i + 1]);
    }
  }

  lemma StepTerminates(s: State, c: Completion)
    requires Legal(s, c) && (c.ReadDone? && c.ok ==> s.live.Some?)
    ensures Step(s, c).terminated <==> Nameless(c)
  {
  }

  lemma {:induction false} RunTerminates(s: State, cs: seq<Completion>)
    requires Inv(s) && Possible(s, cs)
    ensures Run(s, cs).terminated <==> s.terminated || PeerUnknown(cs)
    decreases |cs|
  {
    if cs != [] {
      StepInv(s, cs[0]);
      ReadIsLive(s, cs[0]);
      StepTerminates(s, cs[0]);
      RunTerminates(Step(s, cs[0]), cs[1..]);
      PeerUnknownFirst(cs);
    }
  }

  /** An accept whose socket cannot name its peer ends the server, whether the accept
      failed or not. */
  lemma NamelessEnds(now: nat, ok: bool)
    ensures var cs := [AcceptDone(now, ok, false)];
            Possible(STARTED, cs) && Run(STARTED, cs).terminated
  {
    var c := AcceptDone(now, ok, false);
    RunOne(STARTED, c);
  }

  /** Whatever completes, in whatever order: the pushed events are in order, and
      the messages are the lines of everything received, over all connections. The
      server ends exactly when an accepted socket cannot name its peer. */
  lemma EventsOfRuns(cs: seq<Completion>)
    requires Possible(STARTED, cs)
    ensures var r := Run(STARTED, cs);
            && !WatchAll(r.events).Broken?
            && Texts(r.events) == Messages(AllBytes(cs)) && Free(r.stringBuffer, '\n')
            && (r.terminated <==> PeerUnknown(cs))
            && (r.terminated || r.accepts <= (if r.live.Some? then 0 else 1))
            && (r.running && !r.terminated ==> (r.accepts == 1 <==> r.live.None?))
            && ActiveReads(r.pending) == (if r.live.Some? then [r.live.value] else [])
            && |ActiveWaits(r.waits)| <= 1
  {
    StartedInv();
    RunInv(STARTED, cs);
    RunReceives(cs);
    RunTerminates(STARTED, cs);
    InvMeans(Run(STARTED, cs));
  }

  lemma RunReceives(cs: seq<Completion>)
    requires Possible(STARTED, cs)
    ensures Run(STARTED, cs).received == AllBytes(cs)
  {
    StartedInv();
    RunHears(STARTED, cs);
    assert "" + AllBytes(cs) == AllBytes(cs);
  }

  /** The invariant in the terms of a user of the server. */
  lemma InvMeans(r: State)
    requires Inv(r)
    ensures !WatchAll(r.events).Broken?
    ensures Texts(r.events) == Messages(r.received) && Free(r.stringBuffer, '\n')
    ensures r.terminated || r.accepts <= (if r.live.Some? then 0 else 1)
    ensures r.running && !r.terminated ==> (r.accepts == 1 <==> r.live.None?)
  {
    WellFormedIsRegular(r.events);
    ResidueFree(r.received);
  }

  // ---------------------------------------------------------------- exact effects

  predicate Connects(c: Completion) {
    c.AcceptDone? && c.ok && c.endpointKnown
  }

  /** A failed read, of whatever socket; a timer that finds the last packet, heard at
      `heard`, more than 10500 ms ago; `Stop`'s own call of `Disconnect`. */
  predicate Disconnects(heard: nat, c: Completion) {
    (c.ReadDone? && !c.ok) || (c.WaitDone? && c.ok && c.now > heard + 10500) || c.StopDrop?
  }

  /** What each completion pushes, whether a client is connected or not. */
  lemma EventsExactly(s: State, c: Completion)
    requires Legal(s, c) && (c.ReadDone? && c.ok ==> s.live.Some?)
    ensures Step(s, c).events == s.events +
            (if Connects(c) then [Connected]
             else if Disconnects(s.lastPacket, c) then [Disconnected]
             else if c.ReadDone? then MessageEvents(Messages(s.stringBuffer + c.bytes)) else [])
  {
    assert s.events + [] == s.events;
  }

  /** Who is connected after each completion, what it starts, and which flags it sets:
      an accept is started for each one that failed, and for each live client that is
      dropped while the flag is set. */
  lemma LinkExactly(s: State, c: Completion)
    requires Legal(s, c) && (c.ReadDone? && c.ok ==> s.live.Some?)
    ensures var r, drops := Step(s, c), Disconnects(s.lastPacket, c);
            && r.live == (if Connects(c) then Some(s.sockets) else if drops then None else s.live)
            && r.sockets == s.sockets + (if Connects(c) then 1 else 0)
            && r.accepts == s.accepts - (if c.AcceptDone? then 1 else 0) +
               (if (c.AcceptDone? && c.endpointKnown && !c.ok) || (drops && s.live.Some? && s.running) then 1 else 0)
            && (r.running <==> s.running && !c.StopFlag?) && (r.stopped <==> s.stopped || c.StopContext?)
  {
  }

  /** The deadlines that are left running. */
  function TimersAfter(s: State, c: Completion): seq<nat>
    requires Legal(s, c)
  {
    if Connects(c) || (c.WaitDone? && c.ok && c.now <= s.lastPacket + 10500) then [c.now + 10500]
    else if Disconnects(s.lastPacket, c) && s.live.Some? then []
    else if c.WaitDone? && !s.waits[c.index].cancelled then []
    else ActiveWaits(s.waits)
  }

  lemma AcceptTimer(s: State, now: nat, ok: bool, endpointKnown: bool)
    requires Legal(s, AcceptDone(now, ok, endpointKnown))
    ensures ActiveWaits(OnAccept(s, now, ok, endpointKnown).waits) == TimersAfter(s, AcceptDone(now, ok, endpointKnown))
  {
    if ok && endpointKnown {
      ArmedWait(s.waits, now);
    }
  }

  lemma DropTimer(s: State, now: nat)
    ensures ActiveWaits(Dropped(s, now).waits) == if s.live.Some? then [] else ActiveWaits(s.waits)
  {
    CancelledWaits(s.waits, now);
  }

  lemma ReadTimer(s: State, i: nat, now: nat, ok: bool, bytes: string)
    requires Legal(s, ReadDone(i, now, ok, bytes)) && (ok ==> s.live.Some?)
    ensures ActiveWaits(OnRead(s, i, now, ok, bytes).waits) == TimersAfter(s, ReadDone(i, now, ok, bytes))
  {
    if !ok {
      DropTimer(s.(pending := Remove(s.pending, i)), now);
    }
  }

  lemma WaitTimer(s: State, i: nat, now: nat, ok: bool)
    requires |ActiveWaits(s.waits)| <= 1 && Legal(s, WaitDone(i, now, ok))
    ensures ActiveWaits(OnWait(s, i, now, ok).waits) == TimersAfter(s, WaitDone(i, now, ok))
  {
    RemoveWait(s.waits, i);
    var s1 := s.(waits := Remove(s.waits, i));
    if ok && Late(s, now) {
      DropTimer(s1, now);
    } else if ok {
      ArmedWait(s1.waits, now);
    }
  }

  /** The running timer: armed for 10500 ms by a connection and by a wait that finds the
      last packet recent, cancelled with a live client, else left alone. */
  lemma TimerExactly(s: State, c: Completion)
    requires |ActiveWaits(s.waits)| <= 1 && Legal(s, c) && (c.ReadDone? && c.ok ==> s.live.Some?)
    ensures ActiveWaits(Step(s, c).waits) == TimersAfter(s, c)
  {
    match c {
      case AcceptDone(now, ok, endpointKnown) =>
        AcceptTimer(s, now, ok, endpointKnown);
      case ReadDone(i, now, ok, bytes) =>
        ReadTimer(s, i, now, ok, bytes);
      case WaitDone(i, now, ok) =>
        WaitTimer(s, i, now, ok);
      case StopDrop(now) =>
        DropTimer(s, now);
      case _ =>
    }
  }

  /** A wait that is cancelled, by a new expiry or with its client, still succeeds
      exactly if its deadline has passed by then. */
  lemma CancelledWaitEnds(s: State, now: nat, i: nat, later: nat, ok: bool)
    requires !s.terminated && !s.stopped && i < |s.waits| && !s.waits[i].cancelled && now <= later
    ensures Legal(Armed(s, now), WaitDone(i, later, ok)) <==> (ok <==> s.waits[i].deadline <= now)
    ensures s.live.Some? ==>
              (Legal(Dropped(s, now), WaitDone(i, later, ok)) <==> (ok <==> s.waits[i].deadline <= now))
  {
  }

  function Announces(buffer: string, heard: nat, c: Completion): seq<Event> {
    if Connects(c) then [Connected]
    else if Disconnects(heard, c) then [Disconnected]
    else MessageEvents(Messages(buffer + BytesOf(c)))
  }

  /** The events of a run, read off its completions alone. */
  function Announced(buffer: string, heard: nat, cs: seq<Completion>): seq<Event>
    decreases |cs|
  {
    if cs == [] then []
    else
      Announces(buffer, heard, cs[0]) +
      Announced(Residue(buffer + BytesOf(cs[0])), HeardAt(heard, cs[0]), cs[1..])
  }

  lemma StepAnnounces(s: State, c: Completion)
    requires Inv(s) && Legal(s, c)
    ensures Step(s, c).events == s.events + Announces(s.stringBuffer, s.lastPacket, c)
    ensures Step(s, c).stringBuffer == Residue(s.stringBuffer + BytesOf(c))
  {
    ReadIsLive(s, c);
    EventsExactly(s, c);
    if BytesOf(c) == [] {
      ResidueFree(s.received);
      NoLine(s.stringBuffer);
      assert s.stringBuffer + [] == s.stringBuffer;
    }
    if !c.ReadDone? || !c.ok {
      BufferKept(s, c);
    }
  }

  lemma BufferKept(s: State, c: Completion)
    requires Legal(s, c) && (!c.ReadDone? || !c.ok)
    ensures Step(s, c).stringBuffer == s.stringBuffer
  {
  }

  /** Every run pushes exactly the events its completions announce: a connection for
      each accepted client, the lines each read completes, and a disconnection for each
      failed read, each timer that is late and each `Stop`. */
  lemma {:induction false} RunAnnounces(s: State, cs: seq<Completion>)
    requires Inv(s) && Possible(s, cs)
    ensures Run(s, cs).events == s.events + Announced(s.stringBuffer, s.lastPacket, cs)
    decreases |cs|
  {
    if cs == [] {
      assert s.events + [] == s.events;
    } else {
      var next := Step(s, cs[0]);
      StepInv(s, cs[0]);
      StepAnnounces(s, cs[0]);
      ReadIsLive(s, cs[0]);
      StepHears(s, cs[0]);
      RunAnnounces(next, cs[1..]);
      RunFirst(s, cs);
      Regroup(s.events, Announces(s.stringBuffer, s.lastPacket, cs[0]),
              Announced(next.stringBuffer, next.lastPacket, cs[1..]));
    }
  }

  lemma RunFirst(s: State, cs: seq<Completion>)
    requires Possible(s, cs) && cs != []
    ensures Run(s, cs) == Run(Step(s, cs[0]), cs[1..])
  {
  }

  function Tally(events: seq<Event>, e: Event): nat {
    if events == [] then 0 else (if events[0] == e then 1 else 0) + Tally(events[1..], e)
  }

  lemma {:induction false} TallyConcat(a: seq<Event>, b: seq<Event>, e: Event)
    ensures Tally(a + b, e) == Tally(a, e) + Tally(b, e)
  {
    if a == [] {
      assert a + b == b;
    } else {
      assert (a + b)[1..] == a[1..] + b;
      TallyConcat(a[1..], b, e);
    }
  }

  lemma {:induction false} MessagesTallyNone(ms: seq<string>, e: Event)
    requires !e.Message?
    ensures Tally(MessageEvents(ms), e) == 0
  {
    if ms != [] {
      assert MessageEvents(ms)[1..] == MessageEvents(ms[1..]);
      MessagesTallyNone(ms[1..], e);
    }
  }

  function ConnectsIn(cs: seq<Completion>): nat {
    if cs == [] then 0 else (if Connects(cs[0]) then 1 else 0) + ConnectsIn(cs[1..])
  }

  function DisconnectsIn(heard: nat, cs: seq<Completion>): nat
    decreases |cs|
  {
    if cs == [] then 0
    else (if Disconnects(heard, cs[0]) then 1 else 0) + DisconnectsIn(HeardAt(heard, cs[0]), cs[1..])
  }

  lemma {:induction false} AnnouncedTally(buffer: string, heard: nat, cs: seq<Completion>)
    ensures Tally(Announced(buffer, heard, cs), Connected) == ConnectsIn(cs)
    ensures Tally(Announced(buffer, heard, cs), Disconnected) == DisconnectsIn(heard, cs)
    decreases |cs|
  {
    if cs != [] {
      var first := Announces(buffer, heard, cs[0]);
      var rest := Announced(Residue(buffer + BytesOf(cs[0])), HeardAt(heard, cs[0]), cs[1..]);
      AnnouncedTally(Residue(buffer + BytesOf(cs[0])), HeardAt(heard, cs[0]), cs[1..]);
      TallyConcat(first, rest, Connected);
      TallyConcat(first, rest, Disconnected);
      MessagesTallyNone(Messages(buffer + BytesOf(cs[0])), Connected);
      MessagesTallyNone(Messages(buffer + BytesOf(cs[0])), Disconnected);
      assert first == [Connected] || first == [Disconnected] ==> first[1..] == [];
    }
  }

  /** From start-up there are as many connections as accepted clients, and as many
      disconnections as failed reads, late timers and `Stop`s together. */
  lemma EventsCounted(cs: seq<Completion>)
    requires Possible(STARTED, cs)
    ensures Tally(Run(STARTED, cs).events, Connected) == ConnectsIn(cs)
    ensures Tally(Run(STARTED, cs).events, Disconnected) == DisconnectsIn(0, cs)
  {
    StartedInv();
    RunAnnounces(STARTED, cs);
    assert [] + Announced("", 0, cs) == Announced("", 0, cs);
    AnnouncedTally("", 0, cs);
  }

  /** Exactly what drops a live client: any failed read completion, also a late
      one of an earlier socket; a timer wait, also a stale one, that finds the
      last packet too old; and `Stop`'s own call of `Disconnect`. */
  lemma DroppedExactly(s: State, c: Completion)
    requires Inv(s) && Legal(s, c) && s.live.Some?
    ensures Step(s, c).live != s.live <==>
            (c.ReadDone? && !c.ok) || (c.WaitDone? && c.ok && c.now > s.lastPacket + TIMEOUT_TIME) || c.StopDrop?
    ensures Step(s, c).live != s.live ==> Step(s, c).live.None? && Step(s, c).events == s.events + [Disconnected]
  {
    ReadIsLive(s, c);
  }

  // ---------------------------------------------------------------- time

  /** Timers fire on their deadline: nothing completes after the deadline of a
      wait that is still running. */
  predicate Prompt(s: State, c: Completion, clock: nat) {
    clock <= c.now && forall k | 0 <= k < |ActiveWaits(s.waits)| :: c.now <= ActiveWaits(s.waits)[k]
  }

  predicate Punctual(s: State, cs: seq<Completion>, clock: nat)
    requires Possible(s, cs)
    decreases |cs|
  {
    cs == [] || (Prompt(s, cs[0], clock) && Punctual(Step(s, cs[0]), cs[1..], cs[0].now))
  }

  function EndTime(cs: seq<Completion>, clock: nat): nat {
    if cs == [] then clock else Last(cs).now
  }

  predicate Within(deadlines: seq<nat>, low: nat, high: nat) {
    forall k | 0 <= k < |deadlines| :: low <= deadlines[k] <= high
  }

  /** No running wait is overdue, and none reaches further than two timeouts past the
      last packet. */
  predicate OnTime(s: State, clock: nat) {
    s.lastPacket <= clock && Within(ActiveWaits(s.waits), clock, s.lastPacket + 2 * TIMEOUT_TIME)
  }

  lemma StepOnTime(s: State, c: Completion, clock: nat)
    requires Inv(s) && Legal(s, c) && OnTime(s, clock) && Prompt(s, c, clock)
    ensures OnTime(Step(s, c), c.now)
  {
    assert OnTime(s, c.now);
    match c {
      case AcceptDone(now, ok, endpointKnown) =>
        AcceptOnTime(s, now, ok, endpointKnown);
      case ReadDone(i, now, ok, bytes) =>
        ReadIsLive(s, c);
        DroppedOnTime(s.(pending := Remove(s.pending, i)), now);
      case WaitDone(i, now, ok) =>
        WaitOnTime(s, i, now, ok);
      case StopDrop(now) =>
        DroppedOnTime(s, now);
      case _ =>
    }
  }

  lemma AcceptOnTime(s: State, now: nat, ok: bool, endpointKnown: bool)
    requires s.accepts > 0 && OnTime(s, now)
    ensures OnTime(OnAccept(s, now, ok, endpointKnown), now)
  {
    if endpointKnown && ok {
      ArmedWait(s.waits, now);
      assert Within([now + TIMEOUT_TIME], now, now + 2 * TIMEOUT_TIME);
    }
  }

  lemma DroppedOnTime(s: State, now: nat)
    requires OnTime(s, now)
    ensures OnTime(Dropped(s, now), now)
  {
    CancelledWaits(s.waits, now);
  }

  lemma WaitOnTime(s: State, i: nat, now: nat, ok: bool)
    requires |ActiveWaits(s.waits)| <= 1 && Legal(s, WaitDone(i, now, ok)) && OnTime(s, now)
    ensures OnTime(OnWait(s, i, now, ok), now)
  {
    RemovedWithin(s.waits, i, now, s.lastPacket + 2 * TIMEOUT_TIME);
    RestOnTime(s.(waits := Remove(s.waits, i)), now, ok);
  }

  lemma RestOnTime(s: State, now: nat, ok: bool)
    requires OnTime(s, now)
    ensures OnTime(if !ok then s else if Late(s, now) then Dropped(s, now) else Armed(s, now), now)
  {
    if ok && Late(s, now) {
      DroppedOnTime(s, now);
    } else if ok {
      ArmedWait(s.waits, now);
    }
  }

  lemma RemovedWithin(waits: seq<Wait>, i: nat, low: nat, high: nat)
    requires i < |waits| && |ActiveWaits(waits)| <= 1 && Within(ActiveWaits(waits), low, high)
    ensures Within(ActiveWaits(Remove(waits, i)), low, high)
  {
    RemoveWait(waits, i);
  }

  lemma EndLater(cs: seq<Completion>, clock: nat)
    requires cs != []
    ensures EndTime(cs, clock) == EndTime(cs[1..], cs[0].now)
  {
  }

  lemma {:induction false} RunOnTime(s: State, cs: seq<Completion>, clock: nat)
    requires Inv(s) && Possible(s, cs) && Punctual(s, cs, clock) && OnTime(s, clock)
    ensures OnTime(Run(s, cs), EndTime(cs, clock))
    decreases |cs|
  {
    if cs != [] {
      StepInv(s, cs[0]);
      StepOnTime(s, cs[0], clock);
      RunOnTime(Step(s, cs[0]), cs[1..], cs[0].now);
      EndLater(cs, clock);
    }
  }

  /** Silent clients: after any run with prompt timers, a client whose last packet
      came at time p is not live past p + 21000 ms, and when a timer drops it that
      is later than p + 10500 ms; a client heard from within 10500 ms is not
      dropped by a timer. */
  lemma SilentClient(cs: seq<Completion>, c: Completion)
    requires Possible(STARTED, cs) && Punctual(STARTED, cs, 0)
    requires var s := Run(STARTED, cs);
             s.live.Some? && Legal(s, c) && Prompt(s, c, EndTime(cs, 0))
    ensures var s, p := Run(STARTED, cs), LastHeard(0, cs);
            && c.now <= p + 21000
            && (c.WaitDone? && c.ok ==> (Step(s, c).live.None? <==> c.now > p + 10500))
  {
    StartedInv();
    RunInv(STARTED, cs);
    RunHears(STARTED, cs);
    RunOnTime(STARTED, cs, 0);
    DroppedExactly(Run(STARTED, cs), c);
    assert ActiveWaits(Run(STARTED, cs).waits)[0] >= c.now;
  }

  /** The running wait, by its place. */
  lemma {:induction false} RunningWait(waits: seq<Wait>) returns (i: nat)
    requires |ActiveWaits(waits)| == 1
    ensures i < |waits| && !waits[i].cancelled && waits[i].deadline == ActiveWaits(waits)[0]
  {
    if !Last(waits).cancelled {
      i := |waits| - 1;
      assert Last(ActiveWaits(waits)) == Last(waits).deadline;
    } else {
      i := RunningWait(Init(waits));
    }
  }

  /** The timer of a live client can fire at its deadline, and that is prompt. */
  lemma TimerFires(s: State, clock: nat) returns (i: nat)
    requires Inv(s) && OnTime(s, clock) && s.live.Some? && !s.stopped && !s.terminated
    ensures |ActiveWaits(s.waits)| == 1
    ensures var c := WaitDone(i, ActiveWaits(s.waits)[0], true); Legal(s, c) && Prompt(s, c, clock)
    ensures s.lastPacket <= ActiveWaits(s.waits)[0] <= s.lastPacket + 2 * TIMEOUT_TIME
  {
    i := RunningWait(s.waits);
  }

  /** Fired at its deadline, the timer drops the client or is armed again. */
  lemma FiredTimer(s: State, c: Completion)
    requires s.live.Some? && Legal(s, c) && c.WaitDone? && c.ok
    ensures var r := Step(s, c);
            if c.now > s.lastPacket + TIMEOUT_TIME then r.live.None?
            else r.live == s.live && r.lastPacket == s.lastPacket && ActiveWaits(r.waits) == [c.now + TIMEOUT_TIME] &&
                 r.stopped == s.stopped && r.terminated == s.terminated
  {
    if c.now <= s.lastPacket + TIMEOUT_TIME {
      ArmedWait(Remove(s.waits, c.index), c.now);
    }
  }

  /** The client is connected, its timer runs, and handlers still run. */
  predicate Watched(s: State, clock: nat) {
    Inv(s) && OnTime(s, clock) && s.live.Some? && !s.stopped && !s.terminated
  }

  lemma FireOnce(s: State, clock: nat) returns (c: Completion)
    requires Watched(s, clock)
    ensures c.WaitDone? && Legal(s, c) && Prompt(s, c, clock)
    ensures |ActiveWaits(s.waits)| == 1 && c.now == ActiveWaits(s.waits)[0] <= s.lastPacket + 2 * TIMEOUT_TIME
    ensures Step(s, c).live.None? ||
            (Watched(Step(s, c), c.now) && Step(s, c).lastPacket == s.lastPacket &&
             ActiveWaits(Step(s, c).waits) == [c.now + TIMEOUT_TIME])
  {
    var i := TimerFires(s, clock);
    c := WaitDone(i, ActiveWaits(s.waits)[0], true);
    FiredTimer(s, c);
    StillWatched(s, c, clock);
  }

  lemma StillWatched(s: State, c: Completion, clock: nat)
    requires Watched(s, clock) && Legal(s, c) && Prompt(s, c, clock)
    ensures var r := Step(s, c);
            r.live.Some? && r.stopped == s.stopped && r.terminated == s.terminated ==> Watched(r, c.now)
  {
    StepInv(s, c);
    StepOnTime(s, c, clock);
  }

  /** Left to its timer alone, a live client is gone within two timeouts of its last
      packet. */
  lemma FireTimers(s: State, clock: nat) returns (cs: seq<Completion>)
    requires Watched(s, clock)
    ensures forall k | 0 <= k < |cs| :: cs[k].WaitDone?
    ensures Possible(s, cs) && Punctual(s, cs, clock) && EndTime(cs, clock) <= s.lastPacket + 2 * TIMEOUT_TIME
    ensures Run(s, cs).live.None?
    decreases s.lastPacket + 2 * TIMEOUT_TIME - (if ActiveWaits(s.waits) == [] then 0 else ActiveWaits(s.waits)[0])
  {
    var c := FireOnce(s, clock);
    if Step(s, c).live.None? {
      cs := [c];
      RunOne(s, c);
    } else {
      var later := FireTimers(Step(s, c), c.now);
      RunThen(s, c, later);
      PunctualThen(s, c, later, clock);
      cs := [c] + later;
      assert cs[1..] == later;
      EndLater(cs, clock);
    }
  }

  lemma PunctualThen(s: State, c: Completion, cs: seq<Completion>, clock: nat)
    requires Legal(s, c) && Prompt(s, c, clock) && Possible(Step(s, c), cs) && Punctual(Step(s, c), cs, c.now)
    ensures Possible(s, [c] + cs) && Punctual(s, [c] + cs, clock)
  {
    assert ([c] + cs)[1..] == cs;
  }

  /** After every run with prompt timers a live client that stays silent can be dropped
      by its timer, no later than 21000 ms after its last packet. */
  lemma SilentIsDropped(cs: seq<Completion>) returns (more: seq<Completion>)
    requires Possible(STARTED, cs) && Punctual(STARTED, cs, 0)
    requires var s := Run(STARTED, cs); s.live.Some? && !s.stopped && !s.terminated
    ensures forall k | 0 <= k < |more| :: more[k].WaitDone?
    ensures var s, clock := Run(STARTED, cs), EndTime(cs, 0);
            && Possible(s, more) && Punctual(s, more, clock) && Run(s, more).live.None?
            && EndTime(more, clock) <= LastHeard(0, cs) + 21000
  {
    StartedInv();
    RunInv(STARTED, cs);
    RunHears(STARTED, cs);
    RunOnTime(STARTED, cs, 0);
    more := FireTimers(Run(STARTED, cs), EndTime(cs, 0));
  }

  lemma RunOne(s: State, c: Completion)
    requires Legal(s, c)
    ensures Possible(s, [c]) && Run(s, [c]) == Step(s, c)
  {
    assert [c][1..] == [];
  }

  /** The error of a socket that is gone drops the client that is connected now: the
      first client falls silent, the timer drops it, a second one connects, and only
      then the first one's read completes. */
  lemma StaleErrorDrops(t: nat) returns (cs: seq<Completion>)
    ensures Possible(STARTED, cs)
    ensures var s, stale := Run(STARTED, cs), ReadDone(0, t + 21000, false, "");
            && s.live == Some(1) && s.pending == [PendingRead(0, true), PendingRead(1, false)]
            && Legal(s, stale) && Step(s, stale).live == None
  {
    var a, b := AcceptDone(t, true, true), WaitDone(0, t + 10500, true);
    var c, d := WaitDone(0, t + 21000, true), AcceptDone(t + 21000, true, true);
    FirstTwo(t, a, b);
    NextTwo(t, c, d);
    var s2 := SilentState(t, Wait(t + 21000, false, false));
    RunOne(Step(s2, c), d);
    RunThen(s2, c, [d]);
    RunThen(Step(STARTED, a), b, [c] + [d]);
    cs := [a] + ([b] + ([c] + [d]));
    RunThen(STARTED, a, [b] + ([c] + [d]));
  }

  lemma RunThen(s: State, c: Completion, cs: seq<Completion>)
    requires Legal(s, c) && Possible(Step(s, c), cs)
    ensures Possible(s, [c] + cs) && Run(s, [c] + cs) == Run(Step(s, c), cs)
  {
    assert ([c] + cs)[1..] == cs;
  }

  /** The first client is connected since `t` and has said nothing. */
  function SilentState(t: nat, wait: Wait): State {
    STARTED.(accepts := 0, live := Some(0), sockets := 1, pending := [PendingRead(0, false)], waits := [wait],
             lastPacket := t, events := [Connected])
  }

  lemma FirstTwo(t: nat, a: Completion, b: Completion)
    requires a == AcceptDone(t, true, true) && b == WaitDone(0, t + 10500, true)
    ensures Legal(STARTED, a) && Legal(Step(STARTED, a), b)
    ensures Step(Step(STARTED, a), b) == SilentState(t, Wait(t + 21000, false, false))
  {
    assert Step(STARTED, a) == SilentState(t, Wait(t + 10500, false, false));
  }

  lemma NextTwo(t: nat, c: Completion, d: Completion)
    requires c == WaitDone(0, t + 21000, true) && d == AcceptDone(t + 21000, true, true)
    ensures var s2 := SilentState(t, Wait(t + 21000, false, false));
            && Legal(s2, c) && Legal(Step(s2, c), d)
            && (var s, stale := Step(Step(s2, c), d), ReadDone(0, t + 21000, false, "");
                && s.live == Some(1) && s.pending == [PendingRead(0, true), PendingRead(1, false)]
                && Legal(s, stale) && Step(s, stale).live == None)
  {
    var s2 := SilentState(t, Wait(t + 21000, false, false));
    assert Step(s2, c) == s2.(waits := [], pending := [PendingRead(0, true)], live := None, accepts := 1,
                              events := [Connected, Disconnected]);
  }

  /** A client that times out is announced as disconnected twice: by its timer, and by
      the error of the read the timer cancelled. */
  lemma TimedOutTwice(t: nat) returns (cs: seq<Completion>)
    ensures Possible(STARTED, cs) && Run(STARTED, cs).events == [Connected, Disconnected, Disconnected]
  {
    var a, b := AcceptDone(t, true, true), WaitDone(0, t + 10500, true);
    var c, e := WaitDone(0, t + 21000, true), ReadDone(0, t + 21000, false, "");
    FirstTwo(t, a, b);
    var s2 := SilentState(t, Wait(t + 21000, false, false));
    TimedOut(t, c, e);
    RunOne(Step(s2, c), e);
    RunThen(s2, c, [e]);
    RunThen(Step(STARTED, a), b, [c] + [e]);
    cs := [a] + ([b] + ([c] + [e]));
    RunThen(STARTED, a, [b] + ([c] + [e]));
  }

  lemma TimedOut(t: nat, c: Completion, e: Completion)
    requires c == WaitDone(0, t + 21000, true) && e == ReadDone(0, t + 21000, false, "")
    ensures var s2 := SilentState(t, Wait(t + 21000, false, false));
            && Legal(s2, c) && Legal(Step(s2, c), e)
            && Step(Step(s2, c), e).events == [Connected, Disconnected, Disconnected]
  {
    var s2 := SilentState(t, Wait(t + 21000, false, false));
    assert Step(s2, c) == s2.(waits := [], pending := [PendingRead(0, true)], live := None, accepts := 1,
                              events := [Connected, Disconnected]);
  }

  // ---------------------------------------------------------------- the code

  class Server {
    var m_Running: bool
    var stopped: bool
    var terminated: bool
    var accepts: nat
    var m_Socket: Option<nat>
    var sockets: nat
    var pendingReads: seq<PendingRead>
    var waits: seq<Wait>
    var m_LastPacket: nat
    var m_StringBuffer: string
    var m_MessageQueue: seq<Event>
    ghost var received: string

    ghost function View(): State
      reads this
    {
      State(m_Running, stopped, terminated, accepts, m_Socket, sockets, pendingReads, waits, m_LastPacket,
            m_StringBuffer, m_MessageQueue, received)
    }

    /** `Server::Make` */
    constructor ()
      ensures View() == STARTED
    {
      m_Running, stopped, terminated, accepts, m_Socket, sockets := true, false, false, 0, None, 0;
      pendingReads, waits, m_LastPacket, m_StringBuffer, m_MessageQueue, received := [], [], 0, "", [], "";
      new;
      WaitForClientConnection();
    }

    method WaitForClientConnection()
      modifies this`accepts
      ensures accepts == old(accepts) + 1
    {
      accepts := accepts + 1;
    }

    method StartTimeoutCheck(now: nat)
      modifies this`waits
      ensures View() == Armed(old(View()), now)
      ensures |waits| == |old(waits)| + 1 && waits[|old(waits)|] == Wait(now + 10500, false, false)
    {
      waits := CancelWaits(waits, now);
      waits := waits + [Wait(now + TIMEOUT_TIME, false, false)];
    }

    method ReceiveData()
      requires m_Socket.Some?
      modifies this`pendingReads
      ensures View() == Receiving(old(View()))
    {
      pendingReads := pendingReads + [PendingRead(m_Socket.value, false)];
    }

    method Disconnect(now: nat)
      modifies this
      ensures View() == Dropped(old(View()), now)
      ensures m_MessageQueue == old(m_MessageQueue) + [Disconnected] && m_Socket.None?
      ensures accepts == old(accepts) + (if old(m_Socket).Some? && m_Running then 1 else 0)
    {
      m_MessageQueue := m_MessageQueue + [Disconnected];
      if m_Socket.None? {
        return;
      }
      pendingReads := CancelReads(pendingReads, m_Socket.value);
      waits := CancelWaits(waits, now);
      m_Socket := None;
      if m_Running {
        WaitForClientConnection();
      }
    }

    /** `Stop` when no handler runs between its steps. */
    method Stop(now: nat)
      requires !terminated
      modifies this
      ensures Possible(old(View()), [StopFlag(now), StopDrop(now), StopContext(now)])
      ensures View() == Run(old(View()), [StopFlag(now), StopDrop(now), StopContext(now)])
    {
      ghost var s, a, b, c := View(), StopFlag(now), StopDrop(now), StopContext(now);
      ghost var s1 := Step(s, a);
      RunOne(Step(s1, b), c);
      RunThen(s1, b, [c]);
      RunThen(s, a, [b] + [c]);
      assert [a] + ([b] + [c]) == [a, b, c];
      m_Running := false;
      Disconnect(now);
      stopped := true;
    }

    /** The handler of `async_accept`. */
    method OnAcceptDone(now: nat, ok: bool, endpointKnown: bool)
      requires Legal(View(), AcceptDone(now, ok, endpointKnown))
      modifies this
      ensures View() == Step(old(View()), AcceptDone(now, ok, endpointKnown))
    {
      accepts := accepts - 1;
      if !endpointKnown {
        terminated := true;
      } else if ok {
        Adopt(now);
      } else {
        WaitForClientConnection();
      }
    }

    /** The accept handler's success branch. */
    method Adopt(now: nat)
      modifies this
      ensures View() == Accepted(old(View()), now)
    {
      ghost var s := View();
      m_Socket, sockets := Some(sockets), sockets + 1;
      ReceiveData();
      m_LastPacket := now;
      assert View() == Receiving(s.(live := Some(s.sockets), sockets := s.sockets + 1)).(lastPacket := now);
      StartTimeoutCheck(now);
      m_MessageQueue := m_MessageQueue + [Connected];
    }

    /** The handler of `async_wait`. */
    method OnWaitDone(i: nat, now: nat, ok: bool)
      requires Legal(View(), WaitDone(i, now, ok))
      modifies this
      ensures View() == Step(old(View()), WaitDone(i, now, ok))
    {
      waits := Remove(waits, i);
      if !ok {
        return;
      }
      if now - m_LastPacket > TIMEOUT_TIME {
        Disconnect(now);
        return;
      }
      StartTimeoutCheck(now);
    }

    /** The handler of `async_read_some`. */
    method OnReadDone(i: nat, now: nat, ok: bool, bytes: string)
      requires Legal(View(), ReadDone(i, now, ok, bytes))
      modifies this
      ensures View() == Step(old(View()), ReadDone(i, now, ok, bytes))
      ensures !ok ==> m_MessageQueue == old(m_MessageQueue) + [Disconnected]
    {
      pendingReads := Remove(pendingReads, i);
      if !ok {
        Disconnect(now);
      } else if m_Socket.None? {
        terminated := true;
      } else {
        Absorb(now, bytes);
      }
    }

    /** The read handler's success branch. */
    method Absorb(now: nat, bytes: string)
      requires m_Socket.Some?
      modifies this
      ensures View() == Receiving(Appended(old(View()), bytes).(lastPacket := now))
    {
      SplitLines(bytes);
      m_LastPacket := now;
      ReceiveData();
    }

    /** Push the first line and erase it from the front of the buffer. */
    method TakeLine(pos: nat)
      requires pos < |m_StringBuffer| && m_StringBuffer[pos] == '\n' && Free(m_StringBuffer[..pos], '\n')
      modifies this`m_StringBuffer, this`m_MessageQueue
      ensures m_StringBuffer == old(m_StringBuffer)[pos + 1..]
      ensures Residue(m_StringBuffer) == Residue(old(m_StringBuffer))
      ensures m_MessageQueue + MessageEvents(Messages(m_StringBuffer)) ==
              old(m_MessageQueue) + MessageEvents(Messages(old(m_StringBuffer)))
    {
      OneLine(m_MessageQueue, m_StringBuffer, pos);
      var message := m_StringBuffer[..pos];
      m_StringBuffer := m_StringBuffer[pos + 1..];
      if message != "" && message[|message| - 1] == '\r' {
        message := message[..|message| - 1];
      }
      m_MessageQueue := m_MessageQueue + [Message(message)];
    }

    /** The incremental splitter: append, then erase one line after another from
        the front. */
    method SplitLines(bytes: string)
      modifies this`m_StringBuffer, this`m_MessageQueue, this`received
      ensures View() == Appended(old(View()), bytes)
    {
      m_StringBuffer := m_StringBuffer + bytes;
      received := received + bytes;
      ghost var text, queue := m_StringBuffer, m_MessageQueue;
      var pos: Option<nat> := Find(m_StringBuffer, '\n', 0);
      while pos.Some?
        invariant pos.Some? ==> pos.value < |m_StringBuffer| && m_StringBuffer[pos.value] == '\n' &&
                                Free(m_StringBuffer[..pos.value], '\n')
        invariant pos.None? ==> Free(m_StringBuffer, '\n')
        invariant m_MessageQueue + MessageEvents(Messages(m_StringBuffer)) == queue + MessageEvents(Messages(text))
        invariant Residue(m_StringBuffer) == Residue(text) && received == old(received) + bytes
        decreases |m_StringBuffer|, pos.Some?
      {
        TakeLine(pos.value);
        pos := Find(m_StringBuffer, '\n', 0);
      }
      NoLine(m_StringBuffer);
      assert m_MessageQueue + [] == m_MessageQueue;
    }
  }
}
