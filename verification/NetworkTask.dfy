/** `NetworkTask::Task`: save while offline, throttle reconnects, drain the
    backlog when online, then send the fresh reading. The link is whatever the
    world says at each moment it is asked. */
module NetworkTask {
  import opened Words
  import opened Protocol
  import opened Flash
  import opened PowerCuts
  import opened DataSaver

  const RECONNECT_ATTEMPT_DELAY: nat := 10000
  const FULL_BATCH: nat := MAX_READINGS_PER_BATCH + 1

  /** One answer of the outside world: WiFi up, TCP client connected, and whether
      the two files would open. */
  datatype Moment = Moment(wifi: bool, client: bool, opensBuffer: bool, opensReadings: bool)
  type World = nat -> Moment

  /** What became of a reading that was saved and is no longer stored. */
  datatype Fate = Overwritten | SentAsHistory | LostAtPrintln | LostAtGuard | LostWithPower
  datatype Gone = Gone(entry: Entry, fate: Fate)
  datatype Sent = Sent(entry: Entry, tag: string)

  /** `WiFi.begin`, and `connect` to the server. */
  datatype Dial = BeginWiFi | ConnectServer

  /** What became of a reading when its activation took it from the sensor queue. */
  datatype ArrivalFate = Saved | NotSaved | SentAsFresh | LostAfterDrain
  datatype Arrival = Arrival(reading: SensorData, fate: ArrivalFate)

  /** The state of `Task` with its books: `carried` lists the readings stored at
      boot, `written` these and those saved since, `gone` those that left the store,
      `arrived` the readings of the activations, `sent` the frames that reached the
      socket, `attempts` the true times of the `Reconnect` calls, `dials` what they
      asked of the link. */
  datatype Task = Task(saver: View<Entry>, carried: seq<Entry>, written: seq<Entry>, gone: seq<Gone>,
                       arrived: seq<Arrival>, sent: seq<Sent>, lastAttempt: Word, attempts: seq<nat>,
                       dials: seq<Dial>, moment: nat)

  /** The task as it starts over these places. */
  function Started(queue: seq<Entry>): Task {
    Task(View(queue, false, 0), queue, queue, [], [], [], 0, [], [], 0)
  }

  const BOOTED: Task := Started([])

  /** One reading taken from the sensor queue: the tick counter is read twice, at
      true times `now` and `again`. */
  datatype Activation = Activation(reading: SensorData, timeConfigured: bool, now: nat, again: nat)

  predicate Opens(at: Moment) {
    at.opensBuffer && at.opensReadings
  }

  predicate Up(at: Moment) {
    at.wifi && at.client
  }

  function Print(sent: seq<Sent>, at: Moment, entry: Entry, tag: string): seq<Sent> {
    if at.client then sent + [Sent(entry, tag)] else sent
  }

  /** The call of `Read`, whatever it returns. */
  function Polled(t: Task, world: World): Task {
    t.(saver := AfterRead(t.saver, Opens(world(t.moment))), moment := t.moment + 1)
  }

  /** The drain loop: pop, then check the link, then print. */
  function Drain(t: Task, world: World): Task
    decreases |t.saver.queue|
  {
    var opens := Opens(world(t.moment));
    var popped := Polled(t, world);
    if !ReadSucceeds(t.saver, opens) then popped
    else if !Up(world(popped.moment)) then Guarded(popped, t.saver.queue[0])
    else Drain(Printed(popped, t.saver.queue[0], world), world)
  }

  /** The guard found the link down: the popped reading is dropped. */
  function Guarded(popped: Task, entry: Entry): Task {
    popped.(moment := popped.moment + 1, gone := popped.gone + [Gone(entry, LostAtGuard)])
  }

  /** The guard found the link up: the popped reading goes to `Println`. */
  function Printed(popped: Task, entry: Entry, world: World): Task {
    var at := world(popped.moment + 1);
    popped.(moment := popped.moment + 2,
            gone := popped.gone + [Gone(entry, if at.client then SentAsHistory else LostAtPrintln)],
            sent := Print(popped.sent, at, entry, OLD_SENSOR_READING_TAG))
  }

  /** The drain loop goes on after its next turn. */
  predicate GoesOn(t: Task, world: World) {
    ReadSucceeds(t.saver, Opens(world(t.moment))) && Up(world(t.moment + 1))
  }

  /** One turn of the drain loop. */
  function Turn(t: Task, world: World): Task {
    var popped := Polled(t, world);
    if !ReadSucceeds(t.saver, Opens(world(t.moment))) then popped
    else if !Up(world(popped.moment)) then Guarded(popped, t.saver.queue[0])
    else Printed(popped, t.saver.queue[0], world)
  }

  lemma TurnIs(t: Task, popped: Task, world: World)
    requires popped == Polled(t, world)
    ensures var ok := ReadSucceeds(t.saver, Opens(world(t.moment)));
            && GoesOn(t, world) == (ok && Up(world(popped.moment)))
            && Turn(t, world) == if !ok then popped
                                 else if Up(world(popped.moment)) then Printed(popped, t.saver.queue[0], world)
                                 else Guarded(popped, t.saver.queue[0])
  {
  }

  lemma DrainStep(t: Task, world: World)
    ensures Drain(t, world) == if GoesOn(t, world) then Drain(Turn(t, world), world) else Turn(t, world)
  {
  }

  /** The first turns of the drain loop, or all of them if there are no more. */
  function DrainTurns(t: Task, world: World, turns: nat): Task
    decreases turns
  {
    if turns == 0 then t
    else
      var next := Turn(t, world);
      if GoesOn(t, world) then DrainTurns(next, world, turns - 1) else next
  }

  lemma TurnsStep(t: Task, world: World, turns: nat)
    requires turns > 0
    ensures DrainTurns(t, world, turns) ==
            if GoesOn(t, world) then DrainTurns(Turn(t, world), world, turns - 1) else Turn(t, world)
  {
  }

  /** Power goes while a reading is in the variable of the drain loop. */
  function InHandLost(t: Task, world: World): Task {
    if !ReadSucceeds(t.saver, Opens(world(t.moment))) then Polled(t, world)
    else Polled(t, world).(gone := t.gone + [Gone(t.saver.queue[0], LostWithPower)])
  }

  /** Power goes inside a drain, between two of its turns or inside one. */
  function Halted(t: Task, world: World, turns: nat, inHand: bool): Task {
    var t1 := DrainTurns(t, world, turns);
    if inHand then InHandLost(t1, world) else t1
  }

  lemma PrintedIs(popped: Task, done: Task, at: Moment, entry: Entry, world: World)
    requires at == world(popped.moment + 1)
    requires done == popped.(moment := popped.moment + 2,
                             sent := Print(popped.sent, at, entry, OLD_SENSOR_READING_TAG))
    ensures Printed(popped, entry, world) ==
            done.(gone := done.gone + [Gone(entry, if at.client then SentAsHistory else LostAtPrintln)])
  {
  }

  function Save(t: Task, x: Entry, opens: bool): Task {
    if !opens then t
    else
      t.(saver := AfterWrite(t.saver, x, true), written := t.written + [x],
         gone := if |t.saver.queue| < CIRCULAR_BUFFER_SIZE then t.gone
                 else t.gone + [Gone(t.saver.queue[0], Overwritten)])
  }

  /** The wrap-around test of the tick counter against the last attempt. */
  predicate Due(lastAttempt: Word, now: nat) {
    WrapSub(now % WORD_SPAN, lastAttempt) > RECONNECT_ATTEMPT_DELAY
  }

  /** `Reconnect`: WiFi is begun again only if it is down. */
  function Dials(at: Moment): seq<Dial> {
    if at.wifi then [ConnectServer] else [BeginWiFi, ConnectServer]
  }

  function Retry(t: Task, now: nat, again: nat, world: World): Task {
    if !Due(t.lastAttempt, now) then t
    else
      t.(lastAttempt := again % WORD_SPAN, attempts := t.attempts + [again],
         dials := t.dials + Dials(world(t.moment)), moment := t.moment + 1)
  }

  function Arrive(t: Task, reading: SensorData, fate: ArrivalFate): Task {
    t.(arrived := t.arrived + [Arrival(reading, fate)])
  }

  /** The reading is saved if the time is known and the files open. */
  function Keep(t: Task, a: Activation, at: Moment): Task {
    var saves := a.timeConfigured && Opens(at);
    Arrive(Save(t, Entry(a.reading, true), saves), a.reading, if saves then Saved else NotSaved)
  }

  function Offline(t: Task, a: Activation, world: World): Task {
    Retry(Keep(t.(moment := t.moment + 1), a, world(t.moment)), a.now, a.again, world)
  }

  lemma OfflineIs(t: Task, observed: Task, kept: Task, a: Activation, world: World)
    requires observed == t.(moment := t.moment + 1) && kept == Keep(observed, a, world(t.moment))
    ensures Offline(t, a, world) == Retry(kept, a.now, a.again, world)
  {
  }

  /** The fresh reading goes to `Println`. */
  function Finish(t: Task, reading: SensorData, world: World): Task {
    var at := world(t.moment);
    Arrive(t.(sent := Print(t.sent, at, Entry(reading, true), NEW_SENSOR_READING_TAG), moment := t.moment + 1),
           reading, if at.client then SentAsFresh else LostAfterDrain)
  }

  function Online(t: Task, a: Activation, world: World): Task {
    Finish(Drain(t, world), a.reading, world)
  }

  function Activate(t: Task, a: Activation, world: World): Task {
    var t1 := t.(moment := t.moment + 1);
    if Up(world(t.moment)) then Online(t1, a, world) else Offline(t1, a, world)
  }

  lemma ActivateIs(t: Task, t1: Task, a: Activation, world: World)
    requires t1 == t.(moment := t.moment + 1)
    ensures Activate(t, a, world) == if Up(world(t.moment)) then Online(t1, a, world) else Offline(t1, a, world)
  {
  }

  function Run(t: Task, acts: seq<Activation>, world: World): Task
    decreases |acts|
  {
    if acts == [] then t else Run(Activate(t, acts[0], world), acts[1..], world)
  }

  // ---------------------------------------------------------------- the ledger

  /** The places that left the store. */
  function Places(gone: seq<Gone>): (es: seq<Entry>)
    ensures |es| == |gone|
  {
    seq(|gone|, i requires 0 <= i < |gone| => gone[i].entry)
  }

  /** The places that left as history frames, oldest first. */
  function SentAsOld(gone: seq<Gone>): seq<Entry> {
    if gone == [] then []
    else SentAsOld(gone[..|gone| - 1]) +
         (if gone[|gone| - 1].fate == SentAsHistory then [gone[|gone| - 1].entry] else [])
  }

  /** What the frames with a tag stand for, in the order they were sent. */
  function Framed(sent: seq<Sent>, tag: string): seq<Entry> {
    if sent == [] then []
    else Framed(sent[..|sent| - 1], tag) + (if sent[|sent| - 1].tag == tag then [sent[|sent| - 1].entry] else [])
  }

  /** The readings that arrived and had a fate, oldest first. */
  function ArrivedAs(arrived: seq<Arrival>, fate: ArrivalFate): seq<Entry> {
    if arrived == [] then []
    else ArrivedAs(arrived[..|arrived| - 1], fate) +
         (if arrived[|arrived| - 1].fate == fate then [Entry(arrived[|arrived| - 1].reading, true)] else [])
  }

  /** A reading was overwritten only by one saved a whole ring later. */
  predicate OverwrittenLate(gone: seq<Gone>, written: nat) {
    forall i | 0 <= i < |gone| :: gone[i].fate == Overwritten ==> i + CIRCULAR_BUFFER_SIZE < written
  }

  /** Every saved reading is accounted for once, by position: the first `|gone|` of
      them left the store, each with one fate, the rest are stored; and a reading is
      overwritten only in a full ring. */
  predicate LedgerOk(written: seq<Entry>, gone: seq<Gone>, queue: seq<Entry>) {
    written == Places(gone) + queue && OverwrittenLate(gone, |written|)
  }

  /** The history frames are the readings with fate `SentAsHistory`, in write
      order. */
  predicate HistoryOk(sent: seq<Sent>, gone: seq<Gone>) {
    Framed(sent, OLD_SENSOR_READING_TAG) == SentAsOld(gone)
  }

  /** What was saved is what was stored at boot and the arrivals with fate `Saved`;
      the fresh frames are the arrivals with fate `SentAsFresh`. */
  predicate ArrivalsOk(carried: seq<Entry>, written: seq<Entry>, arrived: seq<Arrival>, sent: seq<Sent>) {
    && written == carried + ArrivedAs(arrived, Saved)
    && Framed(sent, NEW_SENSOR_READING_TAG) == ArrivedAs(arrived, SentAsFresh)
  }

  predicate Balanced(t: Task) {
    && LedgerOk(t.written, t.gone, t.saver.queue) && HistoryOk(t.sent, t.gone)
    && ArrivalsOk(t.carried, t.written, t.arrived, t.sent) && ViewOk(t.saver)
  }

  lemma AddGone(gone: seq<Gone>, g: Gone)
    ensures Places(gone + [g]) == Places(gone) + [g.entry]
    ensures SentAsOld(gone + [g]) == SentAsOld(gone) + (if g.fate == SentAsHistory then [g.entry] else [])
  {
    assert (gone + [g])[..|gone|] == gone;
  }

  lemma AddSent(sent: seq<Sent>, at: Moment, entry: Entry, tag: string, tag': string)
    ensures Framed(Print(sent, at, entry, tag), tag') ==
            Framed(sent, tag') + (if at.client && tag == tag' then [entry] else [])
  {
    assert (sent + [Sent(entry, tag)])[..|sent|] == sent;
  }

  lemma AddArrival(arrived: seq<Arrival>, a: Arrival, fate: ArrivalFate)
    ensures ArrivedAs(arrived + [a], fate) ==
            ArrivedAs(arrived, fate) + (if a.fate == fate then [Entry(a.reading, true)] else [])
  {
    assert (arrived + [a])[..|arrived|] == arrived;
  }

  /** One reading leaves the store. */
  lemma PopLedger(written: seq<Entry>, gone: seq<Gone>, queue: seq<Entry>, fate: Fate)
    requires LedgerOk(written, gone, queue) && queue != []
    requires fate == Overwritten ==> |queue| > CIRCULAR_BUFFER_SIZE
    ensures LedgerOk(written, gone + [Gone(queue[0], fate)], queue[1..])
  {
    AddGone(gone, Gone(queue[0], fate));
    assert queue == [queue[0]] + queue[1..];
  }

  lemma GrowLedger(written: seq<Entry>, gone: seq<Gone>, queue: seq<Entry>, x: Entry)
    requires LedgerOk(written, gone, queue)
    ensures LedgerOk(written + [x], gone, queue + [x])
  {
  }

  /** Popping one reading without sending it. */
  lemma LostHistory(sent: seq<Sent>, gone: seq<Gone>, g: Gone)
    requires HistoryOk(sent, gone) && g.fate != SentAsHistory
    ensures HistoryOk(sent, gone + [g])
  {
    AddGone(gone, g);
  }

  /** Popping one reading and printing it. */
  lemma PrintedHistory(sent: seq<Sent>, gone: seq<Gone>, at: Moment, reading: Entry)
    requires HistoryOk(sent, gone)
    ensures HistoryOk(Print(sent, at, reading, OLD_SENSOR_READING_TAG),
                      gone + [Gone(reading, if at.client then SentAsHistory else LostAtPrintln)])
  {
    AddGone(gone, Gone(reading, if at.client then SentAsHistory else LostAtPrintln));
    AddSent(sent, at, reading, OLD_SENSOR_READING_TAG, OLD_SENSOR_READING_TAG);
  }

  lemma PrintedArrivals(carried: seq<Entry>, written: seq<Entry>, arrived: seq<Arrival>, sent: seq<Sent>,
                        at: Moment, reading: Entry)
    requires ArrivalsOk(carried, written, arrived, sent)
    ensures ArrivalsOk(carried, written, arrived, Print(sent, at, reading, OLD_SENSOR_READING_TAG))
  {
    AddSent(sent, at, reading, OLD_SENSOR_READING_TAG, NEW_SENSOR_READING_TAG);
  }

  lemma {:induction false} DrainBalanced(t: Task, world: World)
    requires Balanced(t)
    ensures Balanced(Drain(t, world))
    decreases |t.saver.queue|
  {
    var opens, popped := Opens(world(t.moment)), Polled(t, world);
    if ReadSucceeds(t.saver, opens) {
      if Up(world(popped.moment)) {
        PrintedBalanced(t, world);
        DrainBalanced(Printed(popped, t.saver.queue[0], world), world);
      } else {
        GuardedBalanced(t, world);
      }
    }
  }

  lemma GuardedBalanced(t: Task, world: World)
    requires Balanced(t) && ReadSucceeds(t.saver, Opens(world(t.moment)))
    ensures Balanced(Guarded(Polled(t, world), t.saver.queue[0]))
  {
    PopLedger(t.written, t.gone, t.saver.queue, LostAtGuard);
    LostHistory(t.sent, t.gone, Gone(t.saver.queue[0], LostAtGuard));
  }

  lemma PrintedBalanced(t: Task, world: World)
    requires Balanced(t) && ReadSucceeds(t.saver, Opens(world(t.moment)))
    ensures Balanced(Printed(Polled(t, world), t.saver.queue[0], world))
  {
    var at, reading := world(t.moment + 2), t.saver.queue[0];
    PopLedger(t.written, t.gone, t.saver.queue, if at.client then SentAsHistory else LostAtPrintln);
    PrintedHistory(t.sent, t.gone, at, reading);
    PrintedArrivals(t.carried, t.written, t.arrived, t.sent, at, reading);
  }

  lemma {:induction false} TurnsBalanced(t: Task, world: World, turns: nat)
    requires Balanced(t)
    ensures Balanced(DrainTurns(t, world, turns)) && DrainTurns(t, world, turns).carried == t.carried
    decreases turns
  {
    if turns > 0 {
      TurnBalanced(t, world);
      TurnsStep(t, world, turns);
      if GoesOn(t, world) {
        TurnsBalanced(Turn(t, world), world, turns - 1);
      }
    }
  }

  lemma TurnBalanced(t: Task, world: World)
    requires Balanced(t)
    ensures Balanced(Turn(t, world)) && Turn(t, world).carried == t.carried
  {
    if ReadSucceeds(t.saver, Opens(world(t.moment))) {
      PrintedBalanced(t, world);
      GuardedBalanced(t, world);
    }
  }

  lemma InHandBalanced(t: Task, world: World)
    requires Balanced(t)
    ensures Balanced(InHandLost(t, world))
  {
    if ReadSucceeds(t.saver, Opens(world(t.moment))) {
      PopLedger(t.written, t.gone, t.saver.queue, LostWithPower);
      LostHistory(t.sent, t.gone, Gone(t.saver.queue[0], LostWithPower));
    }
  }

  /** Power may go inside a drain: the books hold, and the reading in hand is lost with
      a fate of its own. */
  lemma HaltedBalanced(t: Task, world: World, turns: nat, inHand: bool)
    requires Balanced(t)
    ensures Balanced(Halted(t, world, turns, inHand)) && Halted(t, world, turns, inHand).carried == t.carried
  {
    TurnsBalanced(t, world, turns);
    if inHand {
      InHandBalanced(DrainTurns(t, world, turns), world);
    }
  }

  /** With enough turns this is the whole drain. */
  lemma {:induction false} AllTurns(t: Task, world: World, turns: nat)
    requires turns > |t.saver.queue|
    ensures DrainTurns(t, world, turns) == Drain(t, world)
    decreases turns
  {
    TurnsStep(t, world, turns);
    DrainStep(t, world);
    if GoesOn(t, world) {
      AllTurns(Turn(t, world), world, turns - 1);
    }
  }

  lemma SaveLedger(t: Task, x: Entry)
    requires Balanced(t)
    ensures var t' := Save(t, x, true);
            LedgerOk(t'.written, t'.gone, t'.saver.queue) && HistoryOk(t'.sent, t'.gone) && ViewOk(t'.saver)
  {
    var q := t.saver.queue;
    GrowLedger(t.written, t.gone, q, x);
    if |q| >= CIRCULAR_BUFFER_SIZE {
      PopLedger(t.written + [x], t.gone, q + [x], Overwritten);
      LostHistory(t.sent, t.gone, Gone(q[0], Overwritten));
      assert (q + [x])[1..] == q[1..] + [x];
    }
  }

  lemma KeptArrivals(carried: seq<Entry>, written: seq<Entry>, arrived: seq<Arrival>, sent: seq<Sent>,
                     x: SensorData, saves: bool)
    requires ArrivalsOk(carried, written, arrived, sent)
    ensures ArrivalsOk(carried, if saves then written + [Entry(x, true)] else written,
                       arrived + [Arrival(x, if saves then Saved else NotSaved)], sent)
  {
    var a := Arrival(x, if saves then Saved else NotSaved);
    AddArrival(arrived, a, Saved);
    AddArrival(arrived, a, SentAsFresh);
    assert carried + (ArrivedAs(arrived, Saved) + [Entry(x, true)]) == written + [Entry(x, true)];
  }

  lemma KeepBalanced(t: Task, a: Activation, at: Moment)
    requires Balanced(t)
    ensures Balanced(Keep(t, a, at))
  {
    var saves := a.timeConfigured && Opens(at);
    KeptArrivals(t.carried, t.written, t.arrived, t.sent, a.reading, saves);
    if saves {
      SaveLedger(t, Entry(a.reading, true));
    }
  }

  lemma FinishedArrivals(carried: seq<Entry>, written: seq<Entry>, arrived: seq<Arrival>, sent: seq<Sent>,
                         at: Moment, x: SensorData)
    requires ArrivalsOk(carried, written, arrived, sent)
    ensures ArrivalsOk(carried, written, arrived + [Arrival(x, if at.client then SentAsFresh else LostAfterDrain)],
                       Print(sent, at, Entry(x, true), NEW_SENSOR_READING_TAG))
  {
    var a := Arrival(x, if at.client then SentAsFresh else LostAfterDrain);
    AddSent(sent, at, Entry(x, true), NEW_SENSOR_READING_TAG, NEW_SENSOR_READING_TAG);
    AddArrival(arrived, a, Saved);
    AddArrival(arrived, a, SentAsFresh);
  }

  lemma FinishBalanced(t: Task, reading: SensorData, world: World)
    requires Balanced(t)
    ensures Balanced(Finish(t, reading, world))
  {
    var at := world(t.moment);
    AddSent(t.sent, at, Entry(reading, true), NEW_SENSOR_READING_TAG, OLD_SENSOR_READING_TAG);
    FinishedArrivals(t.carried, t.written, t.arrived, t.sent, at, reading);
  }

  lemma RetryBalanced(t: Task, now: nat, again: nat, world: World)
    requires Balanced(t)
    ensures Balanced(Retry(t, now, again, world))
  {
  }

  lemma MomentBalanced(t: Task, moment: nat)
    requires Balanced(t)
    ensures Balanced(t.(moment := moment))
  {
  }

  lemma OfflineBalanced(t: Task, a: Activation, world: World)
    requires Balanced(t)
    ensures Balanced(Offline(t, a, world))
  {
    MomentBalanced(t, t.moment + 1);
    KeepBalanced(t.(moment := t.moment + 1), a, world(t.moment));
    RetryBalanced(Keep(t.(moment := t.moment + 1), a, world(t.moment)), a.now, a.again, world);
  }

  lemma OnlineBalanced(t: Task, a: Activation, world: World)
    requires Balanced(t)
    ensures Balanced(Online(t, a, world))
  {
    DrainBalanced(t, world);
    FinishBalanced(Drain(t, world), a.reading, world);
  }

  lemma ActivateBalanced(t: Task, a: Activation, world: World)
    requires Balanced(t)
    ensures Balanced(Activate(t, a, world))
  {
    var t1 := t.(moment := t.moment + 1);
    MomentBalanced(t, t.moment + 1);
    ActivateIs(t, t1, a, world);
    if Up(world(t.moment)) {
      OnlineBalanced(t1, a, world);
    } else {
      OfflineBalanced(t1, a, world);
    }
  }

  /** One activation gives its reading exactly one fate, and each has its exact
      condition: offline, that is without WiFi or without the client, it is saved if
      the time is known and both files open; online it is sent if the client is still
      there after the drain. */
  lemma ActivateWrites(t: Task, a: Activation, world: World)
    ensures var online := world(t.moment).wifi && world(t.moment).client;
            var saves := a.timeConfigured && world(t.moment + 1).opensBuffer && world(t.moment + 1).opensReadings;
            var t', drained := Activate(t, a, world), Drain(t.(moment := t.moment + 1), world);
            && |t'.arrived| == |t.arrived| + 1 && t.arrived <= t'.arrived
            && t'.arrived[|t.arrived|].reading == a.reading
            && (t'.arrived[|t.arrived|].fate == Saved <==> !online && saves)
            && (t'.arrived[|t.arrived|].fate == NotSaved <==> !online && !saves)
            && (t'.arrived[|t.arrived|].fate == SentAsFresh <==> online && world(drained.moment).client)
            && (t'.arrived[|t.arrived|].fate == LostAfterDrain <==> online && !world(drained.moment).client)
            && t'.written == (if !online && saves then t.written + [Entry(a.reading, true)] else t.written)
  {
    DrainKeepsAttempts(t.(moment := t.moment + 1), world);
  }

  /** The whole-run ledger. */
  lemma {:induction false} RunBalanced(t: Task, acts: seq<Activation>, world: World)
    requires Balanced(t)
    ensures Balanced(Run(t, acts, world))
    decreases |acts|
  {
    if acts != [] {
      ActivateBalanced(t, acts[0], world);
      RunBalanced(Activate(t, acts[0], world), acts[1..], world);
    }
  }

  /** The ledger read position by position. */
  lemma LedgerByPosition(t: Task, acts: seq<Activation>, world: World)
    requires Balanced(t)
    ensures var t' := Run(t, acts, world);
            && |t'.written| == |t'.gone| + |t'.saver.queue|
            && (forall i | 0 <= i < |t'.gone| :: t'.gone[i].entry == t'.written[i])
            && (forall i | |t'.gone| <= i < |t'.written| :: t'.saver.queue[i - |t'.gone|] == t'.written[i])
            && (forall i | 0 <= i < |t'.gone| && t'.gone[i].fate == Overwritten ::
                  i + CIRCULAR_BUFFER_SIZE < |t'.written|)
  {
    RunBalanced(t, acts, world);
    var t' := Run(t, acts, world);
    BalancedLedger(t');
    Positions(t'.written, t'.gone, t'.saver.queue);
  }

  lemma BalancedLedger(t: Task)
    requires Balanced(t)
    ensures LedgerOk(t.written, t.gone, t.saver.queue)
  {
  }

  lemma Positions(written: seq<Entry>, gone: seq<Gone>, queue: seq<Entry>)
    requires LedgerOk(written, gone, queue)
    ensures |written| == |gone| + |queue|
    ensures forall i | 0 <= i < |gone| :: gone[i].entry == written[i]
    ensures forall i | |gone| <= i < |written| :: queue[i - |gone|] == written[i]
    ensures forall i | 0 <= i < |gone| && gone[i].fate == Overwritten :: i + CIRCULAR_BUFFER_SIZE < |written|
  {
    forall i | 0 <= i < |gone| ensures gone[i].entry == written[i] {
      assert Places(gone)[i] == gone[i].entry;
    }
  }

  /** The readings of these activations came one after another. */
  predicate Arrived(before: seq<Arrival>, arrived: seq<Arrival>, acts: seq<Activation>) {
    && |arrived| == |before| + |acts| && before <= arrived
    && forall i | |before| <= i < |arrived| :: arrived[i].reading == acts[i - |before|].reading
  }

  lemma ArrivedMore(before: seq<Arrival>, mid: seq<Arrival>, arrived: seq<Arrival>, acts: seq<Activation>)
    requires acts != [] && Arrived(mid, arrived, acts[1..])
    requires |mid| == |before| + 1 && before <= mid && mid[|before|].reading == acts[0].reading
    ensures Arrived(before, arrived, acts)
  {
    assert arrived[|before|] == mid[|before|];
  }

  /** Every activation's reading arrives once, in order. */
  lemma {:induction false} RunArrives(t: Task, acts: seq<Activation>, world: World)
    ensures Arrived(t.arrived, Run(t, acts, world).arrived, acts)
    decreases |acts|
  {
    if acts != [] {
      ActivateWrites(t, acts[0], world);
      RunArrives(Activate(t, acts[0], world), acts[1..], world);
      ArrivedMore(t.arrived, Activate(t, acts[0], world).arrived, Run(t, acts, world).arrived, acts);
    }
  }

  // ---------------------------------------------------------------- drain bounds

  function Count(gone: seq<Gone>, fate: Fate): nat {
    if gone == [] then 0 else Count(gone[..|gone| - 1], fate) + if gone[|gone| - 1].fate == fate then 1 else 0
  }

  lemma AddCount(gone: seq<Gone>, g: Gone, fate: Fate)
    ensures Count(gone + [g], fate) == Count(gone, fate) + if g.fate == fate then 1 else 0
  {
    assert (gone + [g])[..|gone|] == gone;
  }

  /** One drain takes at most the rest of a batch out of the store, and loses at
      most one reading at the loop guard. */
  lemma {:induction false} DrainBounded(t: Task, world: World)
    requires ViewOk(t.saver)
    ensures var t' := Drain(t, world);
            && |t'.gone| == |t.gone| + |t.saver.queue| - |t'.saver.queue|
            && |t'.gone| <= |t.gone| + FULL_BATCH - t.saver.batch
            && Count(t'.gone, LostAtGuard) <= Count(t.gone, LostAtGuard) + 1
            && ViewOk(t'.saver) && t'.moment > t.moment
    decreases |t.saver.queue|
  {
    var opens := Opens(world(t.moment));
    if ReadSucceeds(t.saver, opens) {
      var reading, at := t.saver.queue[0], world(t.moment + 2);
      if !Up(world(t.moment + 1)) {
        AddCount(t.gone, Gone(reading, LostAtGuard), LostAtGuard);
      } else {
        AddCount(t.gone, Gone(reading, if at.client then SentAsHistory else LostAtPrintln), LostAtGuard);
        DrainBounded(Printed(Polled(t, world), reading, world), world);
      }
    }
  }

  /** Without `Reconnect` a lost connection stays lost. */
  ghost predicate NoReturn(world: World, from: nat, until: nat) {
    forall k: nat, m: nat | from <= k <= m <= until :: !world(k).client ==> !world(m).client
  }

  /** Once the connection is down the guard stops the drain before `Println`. */
  lemma DrainOffline(t: Task, world: World)
    requires !world(t.moment).client && NoReturn(world, t.moment, Drain(t, world).moment)
    ensures Count(Drain(t, world).gone, LostAtPrintln) == Count(t.gone, LostAtPrintln)
  {
    var opens := Opens(world(t.moment));
    if ReadSucceeds(t.saver, opens) {
      var g := Gone(t.saver.queue[0], LostAtGuard);
      AddCount(t.gone, g, LostAtPrintln);
      if Up(world(t.moment + 1)) {
        DrainMoves(Printed(Polled(t, world), t.saver.queue[0], world), world);
      }
    }
  }

  lemma {:induction false} DrainMoves(t: Task, world: World)
    ensures Drain(t, world).moment > t.moment
    decreases |t.saver.queue|
  {
    var opens := Opens(world(t.moment));
    if ReadSucceeds(t.saver, opens) && Up(world(t.moment + 1)) {
      DrainMoves(Printed(Polled(t, world), t.saver.queue[0], world), world);
    }
  }

  lemma {:induction false} DrainLosesOnePrint(t: Task, world: World)
    requires NoReturn(world, t.moment, Drain(t, world).moment)
    ensures Count(Drain(t, world).gone, LostAtPrintln) <= Count(t.gone, LostAtPrintln) + 1
    decreases |t.saver.queue|
  {
    var opens := Opens(world(t.moment));
    if ReadSucceeds(t.saver, opens) {
      var reading, at := t.saver.queue[0], world(t.moment + 2);
      AddCount(t.gone, Gone(reading, LostAtGuard), LostAtPrintln);
      if Up(world(t.moment + 1)) {
        var next := Printed(Polled(t, world), reading, world);
        AddCount(t.gone, Gone(reading, if at.client then SentAsHistory else LostAtPrintln), LostAtPrintln);
        DrainMoves(next, world);
        if at.client {
          DrainLosesOnePrint(next, world);
        } else {
          DrainOffline(next, world);
        }
      }
    }
  }

  /** If the link comes back only through `Reconnect`, a drain loses at most two
      of the readings it popped: one at `Println`'s own check and one at the
      guard. */
  lemma DrainLoses(t: Task, world: World)
    requires ViewOk(t.saver) && NoReturn(world, t.moment, Drain(t, world).moment)
    ensures var t' := Drain(t, world);
            && Count(t'.gone, LostAtPrintln) <= Count(t.gone, LostAtPrintln) + 1
            && Count(t'.gone, LostAtGuard) <= Count(t.gone, LostAtGuard) + 1
  {
    DrainBounded(t, world);
    DrainLosesOnePrint(t, world);
  }

  /** What a batch counter leaves room for. */
  function Room<T>(v: View<T>): nat
    requires ViewOk(v)
  {
    FULL_BATCH - v.batch
  }

  /** The readings a drain goes through while the link is good. */
  function Reach(t: Task, world: World): nat
    requires ViewOk(t.saver)
  {
    if t.saver.open || Opens(world(t.moment)) then Min(|t.saver.queue|, Room(t.saver)) else 0
  }

  /** For the `i`-th reading of a drain that began at `m`, the guard finds the link up
      and `Println` finds the client. */
  predicate Passes(world: World, m: nat, i: nat) {
    world(m + 3 * i + 1).wifi && world(m + 3 * i + 1).client && world(m + 3 * i + 2).client
  }

  predicate AllPass(world: World, m: nat, n: nat) {
    forall i: nat | i < n :: Passes(world, m, i)
  }

  function Lost(gone: seq<Gone>): nat {
    Count(gone, LostAtPrintln) + Count(gone, LostAtGuard)
  }

  /** The losses among `n` readings, from the world alone: one for each `Println` that
      finds no client, until the guard finds the link down and that reading is lost. */
  function Losses(world: World, m: nat, n: nat): nat
    decreases n
  {
    if n == 0 then 0
    else if !Up(world(m + 1)) then 1
    else (if world(m + 2).client then 0 else 1) + Losses(world, m + 3, n - 1)
  }

  lemma AddLost(gone: seq<Gone>, g: Gone)
    ensures Lost(gone + [g]) == Lost(gone) + if g.fate == LostAtPrintln || g.fate == LostAtGuard then 1 else 0
  {
    AddCount(gone, g, LostAtPrintln);
    AddCount(gone, g, LostAtGuard);
  }

  lemma {:induction false} DrainLosses(t: Task, world: World)
    requires ViewOk(t.saver)
    ensures Lost(Drain(t, world).gone) == Lost(t.gone) + Losses(world, t.moment, Reach(t, world))
    decreases |t.saver.queue|
  {
    if !ReadSucceeds(t.saver, Opens(world(t.moment))) {
      ReachNothing(t, world);
    } else if !Up(world(t.moment + 1)) {
      GuardLoses(t, world);
    } else {
      var next := Printed(Polled(t, world), t.saver.queue[0], world);
      ReachNext(t, world);
      DrainNext(t, world);
      PrintLoses(t, world);
      DrainLosses(next, world);
      LossesNext(world, t.moment, Reach(t, world));
    }
  }

  lemma ReachNothing(t: Task, world: World)
    requires ViewOk(t.saver) && !ReadSucceeds(t.saver, Opens(world(t.moment)))
    ensures Drain(t, world).gone == t.gone && Reach(t, world) == 0
  {
  }

  lemma GuardLoses(t: Task, world: World)
    requires ViewOk(t.saver) && ReadSucceeds(t.saver, Opens(world(t.moment))) && !Up(world(t.moment + 1))
    ensures Reach(t, world) > 0 && Lost(Drain(t, world).gone) == Lost(t.gone) + 1
  {
    AddLost(t.gone, Gone(t.saver.queue[0], LostAtGuard));
  }

  lemma PrintLoses(t: Task, world: World)
    requires ReadSucceeds(t.saver, Opens(world(t.moment)))
    ensures Lost(Printed(Polled(t, world), t.saver.queue[0], world).gone) ==
            Lost(t.gone) + if world(t.moment + 2).client then 0 else 1
  {
    var at := world(t.moment + 2);
    AddLost(t.gone, Gone(t.saver.queue[0], if at.client then SentAsHistory else LostAtPrintln));
  }

  lemma LossesNext(world: World, m: nat, n: nat)
    requires n > 0 && Up(world(m + 1))
    ensures Losses(world, m, n) == (if world(m + 2).client then 0 else 1) + Losses(world, m + 3, n - 1)
  {
  }

  lemma ReachNext(t: Task, world: World)
    requires ViewOk(t.saver) && ReadSucceeds(t.saver, Opens(world(t.moment)))
    ensures var next := Printed(Polled(t, world), t.saver.queue[0], world);
            ViewOk(next.saver) && next.moment == t.moment + 3 && Reach(t, world) == Reach(next, world) + 1
  {
  }

  lemma DrainNext(t: Task, world: World)
    requires ReadSucceeds(t.saver, Opens(world(t.moment))) && Up(world(t.moment + 1))
    ensures Drain(t, world) == Drain(Printed(Polled(t, world), t.saver.queue[0], world), world)
  {
  }

  lemma {:induction false} NoLosses(world: World, m: nat, n: nat)
    ensures Losses(world, m, n) == 0 <==> AllPass(world, m, n)
    decreases n
  {
    if n > 0 {
      NoLosses(world, m + 3, n - 1);
      AllPassFirst(world, m, n);
    }
  }

  lemma AllPassFirst(world: World, m: nat, n: nat)
    requires n > 0
    ensures AllPass(world, m, n) <==> Passes(world, m, 0) && AllPass(world, m + 3, n - 1)
  {
    var later := m + 3;
    if AllPass(world, m, n) {
      forall i: nat | i < n - 1 ensures Passes(world, later, i) {
        PassesLater(world, m, i);
      }
    }
    if Passes(world, m, 0) && AllPass(world, later, n - 1) {
      forall j: nat | j < n ensures Passes(world, m, j) {
        if j > 0 {
          PassesLater(world, m, j - 1);
        }
      }
    }
  }

  lemma PassesLater(world: World, m: nat, i: nat)
    ensures Passes(world, m + 3, i) <==> Passes(world, m, i + 1)
  {
    assert m + 3 + 3 * i == m + 3 * (i + 1);
  }

  /** A drain loses nothing exactly when, for every reading there is room for in the
      batch, the link is up at the guard and the client is there at `Println`. */
  lemma DrainLosesNothing(t: Task, world: World)
    requires ViewOk(t.saver)
    ensures Lost(Drain(t, world).gone) == Lost(t.gone) <==>
            AllPass(world, t.moment, Reach(t, world))
  {
    DrainLosses(t, world);
    NoLosses(world, t.moment, Reach(t, world));
  }

  /** WiFi stays, and the client goes at moment `d` for good. */
  ghost predicate GoesAt(world: World, d: int, from: nat, until: nat) {
    forall k: nat | from <= k < until :: world(k).wifi && (world(k).client <==> k < d)
  }

  /** The losses of a drain of `n` readings from moment `m`, the client going at `d`:
      two exactly when it goes between a guard and its `Println` and there is another
      reading to come. */
  function LossesAt(m: nat, n: nat, d: int): nat {
    if n == 0 || d >= m + 3 * n then 0
    else if d >= m && (d - m) % 3 == 2 && (d - m) / 3 + 1 < n then 2
    else 1
  }

  lemma {:induction false} LossesAre(world: World, m: nat, n: nat, d: int)
    requires GoesAt(world, d, m, m + 3 * n)
    ensures Losses(world, m, n) == LossesAt(m, n, d)
    decreases n
  {
    if n > 0 {
      assert world(m + 1).wifi && (world(m + 1).client <==> m + 1 < d);
      assert world(m + 2).client <==> m + 2 < d;
      if m + 1 < d {
        LossesAre(world, m + 3, n - 1, d);
        LossesLater(m, n, d);
      }
    }
  }

  lemma LossesLater(m: nat, n: nat, d: int)
    requires n > 0 && m + 1 < d
    ensures LossesAt(m, n, d) == (if m + 2 < d then 0 else 1) + LossesAt(m + 3, n - 1, d)
  {
    if m + 2 < d {
      assert (d - m - 3) % 3 == (d - m) % 3 && (d - m - 3) / 3 == (d - m) / 3 - 1;
    }
  }

  /** How many readings a drain loses when the client goes at `d` for good. */
  lemma DrainLosesAt(t: Task, world: World, d: int)
    requires ViewOk(t.saver) && GoesAt(world, d, t.moment, t.moment + 3 * Reach(t, world))
    ensures Lost(Drain(t, world).gone) == Lost(t.gone) + LossesAt(t.moment, Reach(t, world), d)
  {
    DrainLosses(t, world);
    LossesAre(world, t.moment, Reach(t, world), d);
  }

  /** The client object stays, and WiFi goes at moment `d` for good. */
  ghost predicate WiFiGoesAt(world: World, d: int, from: nat, until: nat) {
    forall k: nat | from <= k < until :: world(k).client && (world(k).wifi <==> k < d)
  }

  lemma {:induction false} WiFiLosses(world: World, m: nat, n: nat, d: int)
    requires WiFiGoesAt(world, d, m, m + 3 * n)
    ensures Losses(world, m, n) == if n > 0 && d < m + 3 * n - 1 then 1 else 0
    decreases n
  {
    if n > 0 {
      assert world(m + 1).client && (world(m + 1).wifi <==> m + 1 < d);
      assert world(m + 2).client;
      if m + 1 < d {
        WiFiLosses(world, m + 3, n - 1, d);
      }
    }
  }

  /** When WiFi goes at `d` for good and the client object does not notice, a drain
      loses one reading exactly if that is before its last guard, never two. */
  lemma DrainLosesAtWiFi(t: Task, world: World, d: int)
    requires ViewOk(t.saver) && WiFiGoesAt(world, d, t.moment, t.moment + 3 * Reach(t, world))
    ensures var n := Reach(t, world);
            Lost(Drain(t, world).gone) == Lost(t.gone) + if n > 0 && d < t.moment + 3 * n - 1 then 1 else 0
  {
    DrainLosses(t, world);
    WiFiLosses(world, t.moment, Reach(t, world), d);
  }

  /** A drain can lose two readings, and the fresh one after them: from boot, two
      readings are saved offline, and the client goes away just after the guard has
      seen it. */
  lemma ThreeLost(x: SensorData, y: SensorData, z: SensorData)
    ensures var world := (k: nat) => Moment(true, 4 <= k <= 6, true, true);
            var acts := [Activation(x, true, 0, 0), Activation(y, true, 0, 0), Activation(z, true, 0, 0)];
            var t := Run(BOOTED, acts, world);
            && t.gone == [Gone(Entry(x, true), LostAtPrintln), Gone(Entry(y, true), LostAtGuard)] && t.sent == []
            && t.arrived == [Arrival(x, Saved), Arrival(y, Saved), Arrival(z, LostAfterDrain)]
  {
    var world := (k: nat) => Moment(true, 4 <= k <= 6, true, true);
    var a, b, c := Activation(x, true, 0, 0), Activation(y, true, 0, 0), Activation(z, true, 0, 0);
    var t1 := Activate(BOOTED, a, world);
    var t2 := Activate(t1, b, world);
    var ex, ey := Entry(x, true), Entry(y, true);
    assert t2 == BOOTED.(saver := View([ex, ey], false, 0), written := [ex, ey], moment := 4,
                         arrived := [Arrival(x, Saved), Arrival(y, Saved)]);
    var t3 := t2.(moment := 5);
    var t4 := Printed(Polled(t3, world), ex, world);
    assert t4 == t3.(saver := View([ey], true, 1), moment := 8, gone := [Gone(ex, LostAtPrintln)]);
    assert Drain(t4, world) == Guarded(Polled(t4, world), ey);
    assert Drain(t3, world) == Drain(t4, world);
    assert [a, b, c][1..] == [b, c] && [b, c][1..] == [c] && [c][1..] == [];
    assert Run(t2, [c], world) == Activate(t2, c, world);
    assert Run(t1, [b, c], world) == Run(t2, [c], world);
  }

  // ---------------------------------------------------------------- progress

  ghost predicate Stable(world: World, from: nat) {
    forall k: nat | from <= k ::
      world(k).wifi && world(k).client && world(k).opensBuffer && world(k).opensReadings
  }

  function OldFrames(rs: seq<Entry>): (sent: seq<Sent>)
    ensures |sent| == |rs|
  {
    seq(|rs|, i requires 0 <= i < |rs| => Sent(rs[i], OLD_SENSOR_READING_TAG))
  }

  /** With a stable link a drain sends exactly the oldest readings there is room
      for in the batch, and nothing is lost. */
  lemma {:induction false} StableDrain(t: Task, world: World)
    requires ViewOk(t.saver) && Stable(world, t.moment)
    ensures var t', n := Drain(t, world), Min(|t.saver.queue|, Room(t.saver));
            && t'.saver.queue == t.saver.queue[n..]
            && t'.sent == t.sent + OldFrames(t.saver.queue[..n])
            && t'.saver.batch == (if |t.saver.queue| < Room(t.saver) then t.saver.batch + n else 0)
            && t'.moment >= t.moment && !t'.saver.open
    decreases |t.saver.queue|
  {
    assert Up(world(t.moment)) && Up(world(t.moment + 1)) && Up(world(t.moment + 2));
    var q := t.saver.queue;
    if ReadSucceeds(t.saver, true) {
      var next := Printed(Polled(t, world), q[0], world);
      StableDrain(next, world);
      var n := Min(|q|, Room(t.saver));
      assert q[1..][n - 1..] == q[n..];
      assert q[1..][..n - 1] == q[1..n];
      assert OldFrames(q[..n]) == [Sent(q[0], OLD_SENSOR_READING_TAG)] + OldFrames(q[1..n]);
    } else {
      assert Min(|q|, Room(t.saver)) == 0;
      assert OldFrames([]) == [];
    }
  }

  /** What `k` drains in a row can move, starting from a given batch counter. */
  function Capacity<T>(v: View<T>, k: nat): nat
    requires ViewOk(v)
  {
    if k == 0 then 0 else Room(v) + FULL_BATCH * (k - 1)
  }

  /** Under a stable link one activation sends what the batch has room for, then
      the fresh reading. */
  lemma StableActivate(t: Task, a: Activation, world: World)
    requires ViewOk(t.saver) && Stable(world, t.moment)
    ensures var t', n := Activate(t, a, world), Min(|t.saver.queue|, Room(t.saver));
            && t'.saver.queue == t.saver.queue[n..] && ViewOk(t'.saver) && Stable(world, t'.moment)
            && t'.sent == t.sent + OldFrames(t.saver.queue[..n]) +
                          [Sent(Entry(a.reading, true), NEW_SENSOR_READING_TAG)]
            && (t'.saver.queue != [] ==> t'.saver.batch == 0)
  {
    assert Up(world(t.moment));
    StableDrain(t.(moment := t.moment + 1), world);
  }

  /** Under a stable link the backlog shrinks by exactly the batch capacity. */
  lemma {:induction false} BacklogShrinks(t: Task, acts: seq<Activation>, world: World)
    requires ViewOk(t.saver) && Stable(world, t.moment)
    ensures Run(t, acts, world).saver.queue ==
            t.saver.queue[Min(|t.saver.queue|, Capacity(t.saver, |acts|))..]
    decreases |acts|
  {
    if acts != [] {
      var t2 := Activate(t, acts[0], world);
      StableActivate(t, acts[0], world);
      BacklogShrinks(t2, acts[1..], world);
      BacklogSum(t.saver, t2.saver, |acts|, Run(t2, acts[1..], world).saver.queue);
    }
  }

  lemma BacklogSum(v: View<Entry>, v': View<Entry>, k: nat, q: seq<Entry>)
    requires ViewOk(v) && ViewOk(v') && k > 0
    requires v'.queue == v.queue[Min(|v.queue|, Room(v))..] && (v'.queue != [] ==> v'.batch == 0)
    requires q == v'.queue[Min(|v'.queue|, Capacity(v', k - 1))..]
    ensures q == v.queue[Min(|v.queue|, Capacity(v, k))..]
  {
    CapacityStep(v, v', k);
    DropTwice(v.queue, Min(|v.queue|, Room(v)), Min(|v'.queue|, Capacity(v', k - 1)));
  }

  /** One batch, then the rest. */
  lemma CapacityStep(v: View<Entry>, v': View<Entry>, k: nat)
    requires ViewOk(v) && ViewOk(v') && k > 0
    requires |v'.queue| == |v.queue| - Min(|v.queue|, Room(v)) && (|v'.queue| > 0 ==> v'.batch == 0)
    ensures Min(|v.queue|, Capacity(v, k)) == Min(|v.queue|, Room(v)) + Min(|v'.queue|, Capacity(v', k - 1))
  {
  }

  lemma DropTwice<T>(q: seq<T>, a: nat, b: nat)
    requires a + b <= |q|
    ensures q[a..][b..] == q[a + b..]
  {
  }

  /** A backlog of `n` readings is gone after `1 + ceil(n / 51)` activations, from
      any batch counter. */
  lemma BacklogEmpties(t: Task, acts: seq<Activation>, world: World)
    requires ViewOk(t.saver) && Stable(world, t.moment)
    requires |acts| >= 1 + (|t.saver.queue| + FULL_BATCH - 1) / FULL_BATCH
    ensures Run(t, acts, world).saver.queue == []
  {
    BacklogShrinks(t, acts, world);
    AllTaken(t.saver, |acts|);
  }

  lemma AllTaken<T>(v: View<T>, k: nat)
    requires ViewOk(v) && k >= 1 + (|v.queue| + FULL_BATCH - 1) / FULL_BATCH
    ensures Min(|v.queue|, Capacity(v, k)) == |v.queue|
  {
    EnoughCapacity(|v.queue|, k);
  }

  lemma EnoughCapacity(n: nat, k: nat)
    requires k >= 1 + (n + FULL_BATCH - 1) / FULL_BATCH
    ensures k >= 1 && FULL_BATCH * (k - 1) >= n
  {
  }

  // ---------------------------------------------------------------- throttle

  /** True time never runs backwards. */
  predicate Timed(acts: seq<Activation>, from: nat) {
    && (forall i | 0 <= i < |acts| :: from <= acts[i].now <= acts[i].again)
    && (forall i, j | 0 <= i < j < |acts| :: acts[i].again <= acts[j].now)
  }

  /** `lastAttempt` is the last attempt's true time modulo 2^32, and attempts are
      more than the delay apart, the first counted from time 0. */
  predicate Throttled(t: Task, time: nat) {
    && t.lastAttempt == LastAttempt(t.attempts) % WORD_SPAN
    && (forall i | 0 <= i < |t.attempts| :: RECONNECT_ATTEMPT_DELAY < t.attempts[i] <= time)
    && (forall i, j | 0 <= i < j < |t.attempts| :: t.attempts[j] - t.attempts[i] > RECONNECT_ATTEMPT_DELAY)
  }

  /** The modular test never fires early. */
  lemma DueIsLate(last: nat, now: nat)
    requires last <= now && Due(last % WORD_SPAN, now)
    ensures now - last > RECONNECT_ATTEMPT_DELAY
  {
    WrapSubMod(now, last);
  }

  /** It fires exactly when the true gap, taken modulo 2^32, exceeds the delay: a
      gap just above a whole turn of the counter is mistaken for a short one. */
  lemma DueExactly(last: nat, now: nat)
    requires last <= now
    ensures Due(last % WORD_SPAN, now) <==> (now - last) % WORD_SPAN > RECONNECT_ATTEMPT_DELAY
    ensures now - last < WORD_SPAN ==> (Due(last % WORD_SPAN, now) <==> now - last > RECONNECT_ATTEMPT_DELAY)
  {
    WrapSubMod(now, last);
  }

  /** After a silence of 2^32 + 5 ticks the test takes the gap for one of 5. */
  lemma GapMistaken()
    ensures !Due(0, WORD_SPAN + 5)
  {
    WrapSubMod(WORD_SPAN + 5, 0);
  }

  lemma {:induction false} DrainKeepsAttempts(t: Task, world: World)
    ensures Drain(t, world).attempts == t.attempts && Drain(t, world).lastAttempt == t.lastAttempt
    ensures Drain(t, world).written == t.written && Drain(t, world).carried == t.carried
    ensures Drain(t, world).arrived == t.arrived && Drain(t, world).dials == t.dials
    decreases |t.saver.queue|
  {
    var opens := Opens(world(t.moment));
    if ReadSucceeds(t.saver, opens) && Up(world(t.moment + 1)) {
      DrainKeepsAttempts(Printed(Polled(t, world), t.saver.queue[0], world), world);
    }
  }

  /** The true time of the last attempt; the counter starts at zero. */
  function LastAttempt(attempts: seq<nat>): nat {
    if attempts == [] then 0 else attempts[|attempts| - 1]
  }

  lemma RetryThrottled(t: Task, now: nat, again: nat, world: World, time: nat)
    requires Throttled(t, time) && time <= now <= again
    ensures Throttled(Retry(t, now, again, world), again)
  {
    if Due(t.lastAttempt, now) {
      DueIsLate(LastAttempt(t.attempts), now);
    }
  }

  lemma ActivateThrottled(t: Task, a: Activation, world: World, time: nat)
    requires Throttled(t, time) && time <= a.now <= a.again
    ensures Throttled(Activate(t, a, world), a.again)
  {
    var t1 := t.(moment := t.moment + 1);
    ActivateIs(t, t1, a, world);
    if Up(world(t.moment)) {
      DrainKeepsAttempts(t1, world);
      SameAttempts(t, Online(t1, a, world), time, a.again);
    } else {
      var saved := Keep(t1.(moment := t1.moment + 1), a, world(t1.moment));
      SameAttempts(t, saved, time, a.now);
      RetryThrottled(saved, a.now, a.again, world, a.now);
    }
  }

  lemma SameAttempts(t: Task, t': Task, time: nat, time': nat)
    requires Throttled(t, time) && time <= time'
    requires t'.attempts == t.attempts && t'.lastAttempt == t.lastAttempt
    ensures Throttled(t', time')
  {
  }

  /** Reconnect attempts are more than the delay apart in true time, over every
      run and across any number of counter wraps. */
  lemma {:induction false} RunThrottled(t: Task, acts: seq<Activation>, world: World, time: nat)
    requires Throttled(t, time) && Timed(acts, time)
    ensures Throttled(Run(t, acts, world), if acts == [] then time else acts[|acts| - 1].again)
    decreases |acts|
  {
    if acts != [] {
      ActivateThrottled(t, acts[0], world, time);
      assert Timed(acts[1..], acts[0].again);
      RunThrottled(Activate(t, acts[0], world), acts[1..], world, acts[0].again);
    }
  }

  /** Exactly when an activation calls `Reconnect`: the link is down when it looks, and
      the gap since the last attempt, modulo 2^32, exceeds 10000 ticks. WiFi is then
      begun again exactly if it is down, and the server is dialled. */
  lemma ReconnectExactly(t: Task, a: Activation, world: World, time: nat)
    requires Throttled(t, time) && time <= a.now <= a.again
    ensures var last := if t.attempts == [] then 0 else t.attempts[|t.attempts| - 1];
            var down := !(world(t.moment).wifi && world(t.moment).client);
            var tries := down && (a.now - last) % 0x1_0000_0000 > 10000;
            var t' := Activate(t, a, world);
            && t'.attempts == t.attempts + (if tries then [a.again] else [])
            && t'.dials == t.dials + (if !tries then [] else if world(t.moment + 2).wifi then [ConnectServer]
                                      else [BeginWiFi, ConnectServer])
  {
    DueExactly(LastAttempt(t.attempts), a.now);
    var t1 := t.(moment := t.moment + 1);
    ActivateIs(t, t1, a, world);
    OnlineDials(t1, a, world);
    OfflineDials(t1, a, world);
  }

  lemma OnlineDials(t: Task, a: Activation, world: World)
    ensures Online(t, a, world).attempts == t.attempts && Online(t, a, world).dials == t.dials
  {
    DrainKeepsAttempts(t, world);
  }

  lemma OfflineDials(t: Task, a: Activation, world: World)
    ensures var r, tries := Offline(t, a, world), Due(t.lastAttempt, a.now);
            && r.attempts == t.attempts + (if tries then [a.again] else [])
            && r.dials == t.dials + if tries then Dials(world(t.moment + 1)) else []
  {
  }

  /** Offline the sensor keeps trying: after any run, an activation that finds the link
      down leaves the last attempt no more than 10000 ticks behind it, unless the
      counter had gone round since. */
  lemma OfflineRetries(t: Task, acts: seq<Activation>, a: Activation, world: World, time: nat)
    requires Throttled(t, time) && Timed(acts + [a], time)
    requires var t1 := Run(t, acts, world);
             !(world(t1.moment).wifi && world(t1.moment).client) &&
             a.now - LastAttempt(t1.attempts) < 0x1_0000_0000
    ensures a.now <= LastAttempt(Activate(Run(t, acts, world), a, world).attempts) + 10000
  {
    TimedLast(acts, a, time);
    RunThrottled(t, acts, world, time);
    StepRetries(Run(t, acts, world), a, world, if acts == [] then time else acts[|acts| - 1].again);
  }

  lemma TimedLast(acts: seq<Activation>, a: Activation, time: nat)
    requires Timed(acts + [a], time)
    ensures Timed(acts, time) && (if acts == [] then time else acts[|acts| - 1].again) <= a.now <= a.again
  {
    var all := acts + [a];
    assert forall i | 0 <= i < |acts| :: all[i] == acts[i];
    assert all[|acts|] == a;
  }

  lemma StepRetries(t: Task, a: Activation, world: World, time: nat)
    requires Throttled(t, time) && time <= a.now <= a.again
    requires !(world(t.moment).wifi && world(t.moment).client) && a.now - LastAttempt(t.attempts) < 0x1_0000_0000
    ensures a.now <= LastAttempt(Activate(t, a, world).attempts) + 10000
  {
    ReconnectExactly(t, a, world, time);
  }

  /** A sensor that boots out of reach tries for the first time once the counter has
      passed 10000. */
  lemma FirstReconnect(queue: seq<Entry>, a: Activation, world: World)
    requires a.now <= a.again && !(world(0).wifi && world(0).client)
    ensures Run(Started(queue), [a], world).attempts == if a.now % 0x1_0000_0000 > 10000 then [a.again] else []
  {
    assert [a][1..] == [];
    ReconnectExactly(Started(queue), a, world, 0);
  }

  // ---------------------------------------------------------------- the wire

  /** A frame as it was printed: the reading that was in the variable. */
  datatype Packet = Packet(reading: SensorData, tag: string)

  /** The characters `println` makes of the frames. */
  function WireText(packets: seq<Packet>): string {
    if packets == [] then []
    else
      var last := packets[|packets| - 1];
      WireText(packets[..|packets| - 1]) + Frame(last.reading, last.tag) + "\r\n"
  }

  lemma WireTextMore(packets: seq<Packet>, p: Packet)
    ensures WireText(packets + [p]) == WireText(packets) + Frame(p.reading, p.tag) + "\r\n"
  {
    assert (packets + [p])[..|packets|] == packets;
  }

  /** A printed frame holds the reading meant, unless its place was spoiled. */
  predicate CarriesOne(p: Packet, s: Sent) {
    p.tag == s.tag && (s.entry.genuine ==> p.reading == s.entry.reading)
  }

  /** The frames on the wire are those of the books. */
  predicate Carries(packets: seq<Packet>, sent: seq<Sent>) {
    |packets| == |sent| && forall i | 0 <= i < |sent| :: CarriesOne(packets[i], sent[i])
  }

  lemma CarriesMore(packets: seq<Packet>, sent: seq<Sent>, p: Packet, s: Sent)
    requires Carries(packets, sent) && CarriesOne(p, s)
    ensures Carries(packets + [p], sent + [s])
    ensures WireText(packets + [p]) == WireText(packets) + Frame(p.reading, p.tag) + "\r\n"
  {
    WireTextMore(packets, p);
  }

  /** The frames as they were meant. */
  function AsMeant(sent: seq<Sent>): (packets: seq<Packet>)
    ensures |packets| == |sent|
    ensures forall i | 0 <= i < |sent| :: packets[i] == Packet(sent[i].entry.reading, sent[i].tag)
  {
    seq(|sent|, i requires 0 <= i < |sent| => Packet(sent[i].entry.reading, sent[i].tag))
  }

  predicate SentGenuine(sent: seq<Sent>) {
    forall i | 0 <= i < |sent| :: sent[i].entry.genuine
  }

  /** What is genuine stays genuine until power fails. */
  lemma {:induction false} DrainGenuine(t: Task, world: World)
    requires AllGenuine(t.saver.queue) && SentGenuine(t.sent)
    ensures AllGenuine(Drain(t, world).saver.queue) && SentGenuine(Drain(t, world).sent)
    decreases |t.saver.queue|
  {
    if ReadSucceeds(t.saver, Opens(world(t.moment))) && Up(world(t.moment + 1)) {
      DrainGenuine(Printed(Polled(t, world), t.saver.queue[0], world), world);
    }
  }

  lemma {:induction false} RunGenuine(t: Task, acts: seq<Activation>, world: World)
    requires AllGenuine(t.saver.queue) && SentGenuine(t.sent)
    ensures AllGenuine(Run(t, acts, world).saver.queue) && SentGenuine(Run(t, acts, world).sent)
    decreases |acts|
  {
    if acts != [] {
      DrainGenuine(t.(moment := t.moment + 1), world);
      RunGenuine(Activate(t, acts[0], world), acts[1..], world);
    }
  }

  lemma GenuineCarries(packets: seq<Packet>, sent: seq<Sent>)
    requires Carries(packets, sent) && SentGenuine(sent)
    ensures packets == AsMeant(sent)
  {
    forall i | 0 <= i < |sent| ensures packets[i] == AsMeant(sent)[i] {
      assert CarriesOne(packets[i], sent[i]);
    }
  }

  // ---------------------------------------------------------------- the code

  class Connection {
    /** Everything handed to the TCP client so far. */
    var wire: string
    /** Everything asked of the link so far. */
    var dials: seq<Dial>

    constructor ()
      ensures wire == "" && dials == []
    {
      wire, dials := "", [];
    }

    method IsConnected(at: Moment) returns (r: bool)
      ensures r <==> at.wifi && at.client
    {
      r := at.wifi && at.client;
    }

    method Reconnect(at: Moment)
      modifies this`dials
      ensures dials == old(dials) + (if at.wifi then [ConnectServer] else [BeginWiFi, ConnectServer])
    {
      if !at.wifi {
        dials := dials + [BeginWiFi];
      }
      dials := dials + [ConnectServer];
    }

    method Println(text: string, at: Moment)
      modifies this`wire
      ensures wire == if at.client then old(wire) + text + "\r\n" else old(wire)
    {
      if at.client {
        wire := wire + text + "\r\n";
      }
    }
  }

  /** The files are there and hold these places. */
  ghost predicate Stocks(saver: DataSaver, es: seq<Entry>)
    reads saver, saver.fs
  {
    saver.Valid() && saver.fs.Ready() && Faithful(saver.fs.Disk().readings, State(saver.fs.Disk()), es)
  }

  /** A read of faithful files, and what it leaves. */
  lemma FaithfulRead(img: Image, es: seq<Entry>, previous: SensorData)
    requires Faithful(img.readings, State(img), es) && State(img).count > 0
    ensures es[0].genuine ==> Fetched(img.readings, State(img).tail, previous) == es[0].reading
    ensures Faithful(Popped(img).readings, State(Popped(img)), es[1..])
  {
    OldestKept(img.readings, State(img), es);
    FetchedIs(img.readings, State(img).tail, previous);
    PopKeeps(img.readings, State(img), es);
    StateOfWithState(img, Pop(State(img)));
  }

  /** `Read`, in terms of the places. */
  method ReadPlace(saver: DataSaver, previous: SensorData, at: Moment, ghost es: seq<Entry>)
    returns (ok: bool, data: SensorData, ghost rest: seq<Entry>)
    requires Stocks(saver, es)
    modifies saver, saver.fs`buffer
    ensures Stocks(saver, rest)
    ensures var v := View(es, old(saver.bufferOpen), old(saver.batchCount));
            && ok == ReadSucceeds(v, Opens(at))
            && View(rest, saver.bufferOpen, saver.batchCount) == AfterRead(v, Opens(at))
            && (ok && es[0].genuine ==> data == es[0].reading)
  {
    ghost var before := saver.fs.Disk();
    rest := es;
    assert |saver.Abstract().queue| == |es|;
    ok, data := saver.Read(previous, at.opensBuffer, at.opensReadings);
    if ok {
      FaithfulRead(before, es, previous);
      rest := es[1..];
    }
  }

  /** `Write`, in terms of the places. */
  method WritePlace(saver: DataSaver, x: SensorData, at: Moment, ghost es: seq<Entry>) returns (ghost more: seq<Entry>)
    requires Stocks(saver, es)
    modifies saver.fs`buffer, saver.fs`readings
    ensures Stocks(saver, more) && more == if Opens(at) then Push(es, Entry(x, true)) else es
  {
    ghost var before := saver.fs.Disk();
    more := if Opens(at) then Push(es, Entry(x, true)) else es;
    saver.Write(x, at.opensBuffer, at.opensReadings);
    if Opens(at) {
      CutKeeps(before, es, x, true, true);
    }
  }

  class NetworkTask {
    const saver: DataSaver
    const connection: Connection
    const world: World
    var lastReconnectAttempt: Word
    var moment: nat
    /** The places the files hold, and the frames on the wire. */
    ghost var places: seq<Entry>
    ghost var packets: seq<Packet>
    ghost const carried: seq<Entry>
    ghost var written: seq<Entry>
    ghost var gone: seq<Gone>
    ghost var arrived: seq<Arrival>
    ghost var sent: seq<Sent>
    ghost var attempts: seq<nat>

    ghost predicate Valid()
      reads `places, `packets, `sent, saver, saver.fs, connection
    {
      Stocked() && Wired()
    }

    ghost predicate Stocked()
      reads `places, saver, saver.fs
    {
      Stocks(saver, places)
    }

    /** The wire holds the frames of the books. */
    ghost predicate Wired()
      reads `packets, `sent, connection
    {
      connection.wire == WireText(packets) && Carries(packets, sent)
    }

    ghost function Books(): Task
      reads this, saver, connection`dials
    {
      Task(View(places, saver.bufferOpen, saver.batchCount), carried, written, gone, arrived, sent,
           lastReconnectAttempt, attempts, connection.dials, moment)
    }

    /** The task starts over whatever an earlier run left, power cuts included. */
    constructor (saver: DataSaver, world: World, ghost places: seq<Entry>)
      requires Stocks(saver, places) && !saver.bufferOpen && saver.batchCount == 0
      ensures Valid() && this.saver == saver && this.world == world && fresh(connection)
      ensures Books() == Started(places) && packets == []
    {
      this.saver, this.world, this.places := saver, world, places;
      connection := new Connection();
      lastReconnectAttempt, moment, gone, arrived, sent, attempts := 0, 0, [], [], [], [];
      carried, written, packets := places, places, [];
    }

    /** Ask the world. */
    method Observe() returns (at: Moment)
      modifies this`moment
      ensures at == world(old(moment))
      ensures Books() == old(Books()).(moment := old(moment) + 1)
    {
      at := world(moment);
      moment := moment + 1;
    }

    /** Print one frame; `entry` is the place the reading came from. */
    method Transmit(reading: SensorData, tag: string, ghost entry: Entry)
      requires Wired() && (entry.genuine ==> reading == entry.reading)
      modifies this`moment, this`sent, this`packets, connection`wire
      ensures Wired()
      ensures Books() == old(Books()).(moment := old(moment) + 1,
                                       sent := Print(old(sent), world(old(moment)), entry, tag))
    {
      var at := Observe();
      connection.Println(FormatDataString(ToString(reading), tag), at);
      if at.client {
        CarriesMore(packets, sent, Packet(reading, tag), Sent(entry, tag));
        sent, packets := sent + [Sent(entry, tag)], packets + [Packet(reading, tag)];
      }
    }

    /** The fresh reading, with its fate. */
    method TransmitFresh(reading: SensorData)
      requires Wired()
      modifies this`moment, this`sent, this`packets, this`arrived, connection`wire
      ensures Wired() && Books() == Finish(old(Books()), reading, world)
    {
      ghost var fate := if world(moment).client then SentAsFresh else LostAfterDrain;
      Transmit(reading, NEW_SENSOR_READING_TAG, Entry(reading, true));
      arrived := arrived + [Arrival(reading, fate)];
    }

    /** One call of `Read`: what it hands out is the reading of the oldest place, unless
        that place is spoiled. */
    method NextSaved(previous: SensorData) returns (ok: bool, data: SensorData)
      requires Stocked()
      modifies this`moment, this`places, saver, saver.fs`buffer
      ensures Stocked() && Books() == Polled(old(Books()), world)
      ensures ok == ReadSucceeds(old(Books()).saver, Opens(world(old(moment))))
      ensures ok ==> old(places)[0].genuine ==> data == old(places)[0].reading
    {
      var at := Observe();
      ok, data, places := ReadPlace(saver, previous, at, places);
    }

    /** Send one saved reading if the guard lets it pass, and book its fate. */
    method SendSaved(reading: SensorData, ghost entry: Entry) returns (connected: bool)
      requires Wired() && (entry.genuine ==> reading == entry.reading)
      modifies this`moment, this`sent, this`packets, this`gone, connection`wire
      ensures Wired() && connected == Up(world(old(moment)))
      ensures Books() == if connected then Printed(old(Books()), entry, world) else Guarded(old(Books()), entry)
    {
      ghost var t := Books();
      var at := Observe();
      connected := connection.IsConnected(at);
      if connected {
        PrintSaved(reading, entry, t);
      } else {
        gone := gone + [Gone(entry, LostAtGuard)];
      }
    }

    /** The guard has let it pass. */
    method PrintSaved(reading: SensorData, ghost entry: Entry, ghost t: Task)
      requires Wired() && (entry.genuine ==> reading == entry.reading)
      requires Books() == t.(moment := t.moment + 1)
      modifies this`moment, this`sent, this`packets, this`gone, connection`wire
      ensures Wired() && Books() == Printed(t, entry, world)
    {
      ghost var at := world(moment);
      Transmit(reading, OLD_SENSOR_READING_TAG, entry);
      ghost var done := Books();
      PrintedIs(t, done, at, entry, world);
      gone := gone + [Gone(entry, if at.client then SentAsHistory else LostAtPrintln)];
      assert Books() == done.(gone := gone);
    }

    /** The inner loop of `Task`. */
    method DrainSaved()
      requires Valid()
      modifies this, saver, saver.fs`buffer, connection`wire
      ensures Valid() && Books() == Drain(old(Books()), world)
    {
      var savedSensorData := SensorData(0, 0, 0, 0);
      ghost var finish := Drain(Books(), world);
      var running := true;
      while running
        invariant Valid()
        invariant finish == if running then Drain(Books(), world) else Books()
        decreases running, |places|
      {
        DrainStep(Books(), world);
        running, savedSensorData := DrainOne(savedSensorData);
      }
    }

    /** One turn of the inner loop; the variable keeps its reading between turns. */
    method DrainOne(previous: SensorData) returns (running: bool, data: SensorData)
      requires Valid()
      modifies this, saver, saver.fs`buffer, connection`wire
      ensures Valid() && (running ==> |places| < |old(places)|)
      ensures running == GoesOn(old(Books()), world) && Books() == Turn(old(Books()), world)
    {
      ghost var t, queue := Books(), places;
      running, data := NextSaved(previous);
      TurnIs(t, Books(), world);
      if running {
        running := SendSaved(data, queue[0]);
      }
    }

    /** The inner loop of `Task`, until power goes. */
    method DrainSome(previous: SensorData, turns: nat)
      requires Valid()
      modifies this, saver, saver.fs`buffer, connection`wire
      ensures Valid() && Books() == DrainTurns(old(Books()), world, turns)
      decreases turns
    {
      if turns > 0 {
        TurnsStep(Books(), world, turns);
        var running, data := DrainOne(previous);
        DrainSome(data, if running then turns - 1 else 0);
      }
    }

    /** Power goes inside the inner loop, perhaps with a reading in hand. */
    method Halt(turns: nat, inHand: bool)
      requires Valid()
      modifies this, saver, saver.fs`buffer, connection`wire
      ensures Valid() && Books() == Halted(old(Books()), world, turns, inHand)
    {
      DrainSome(SensorData(0, 0, 0, 0), turns);
      if inHand {
        LoseInHand();
      }
    }

    /** One reading more is taken, and goes with the power. */
    method LoseInHand()
      requires Valid()
      modifies this, saver, saver.fs`buffer
      ensures Valid() && Books() == InHandLost(old(Books()), world)
    {
      ghost var queue := places;
      var taken, _ := NextSaved(SensorData(0, 0, 0, 0));
      if taken {
        gone := gone + [Gone(queue[0], LostWithPower)];
      }
    }

    /** Save the reading if the time is known. */
    method KeepReading(a: Activation, at: Moment)
      requires Stocked()
      modifies this`places, this`written, this`gone, this`arrived, saver.fs`buffer, saver.fs`readings
      ensures Stocked() && Books() == Keep(old(Books()), a, at)
    {
      ghost var kept := Keep(Books(), a, at);
      if a.timeConfigured {
        places := WritePlace(saver, a.reading, at, places);
      }
      written, gone, arrived := kept.written, kept.gone, kept.arrived;
    }

    /** Reconnect unless the last attempt is too recent. */
    method TryReconnect(now: nat, again: nat)
      modifies this`lastReconnectAttempt, this`attempts, this`moment, connection`dials
      ensures Books() == Retry(old(Books()), now, again, world)
      ensures var late := (now - old(lastReconnectAttempt)) % 0x1_0000_0000 > 10000;
              && attempts == old(attempts) + (if late then [again] else [])
              && connection.dials == old(connection.dials) +
                 (if !late then [] else if world(old(moment)).wifi then [ConnectServer] else [BeginWiFi, ConnectServer])
    {
      var ticks: Word := now % WORD_SPAN;
      if WrapSub(ticks, lastReconnectAttempt) > RECONNECT_ATTEMPT_DELAY {
        lastReconnectAttempt := again % WORD_SPAN;
        attempts := attempts + [again];
        var at := Observe();
        connection.Reconnect(at);
      }
    }

    /** One turn of the endless loop of `Task`, for one reading from the sensor
        queue; `xTaskGetTickCount` answers at true times `now` and `again`. */
    method OnReading(sensorData: SensorData, timeConfigured: bool, now: nat, again: nat)
      requires Valid()
      modifies this, saver, saver.fs`buffer, saver.fs`readings, connection
      ensures Valid()
      ensures Books() == Activate(old(Books()), Activation(sensorData, timeConfigured, now, again), world)
    {
      ghost var t, a := Books(), Activation(sensorData, timeConfigured, now, again);
      var at := Observe();
      var connected := connection.IsConnected(at);
      ActivateIs(t, Books(), a, world);
      if !connected {
        GoOffline(Activation(sensorData, timeConfigured, now, again));
      } else {
        GoOnline(sensorData);
      }
    }

    /** The turn's offline branch. */
    method GoOffline(a: Activation)
      requires Stocked()
      modifies this`places, this`written, this`gone, this`arrived, this`moment, this`lastReconnectAttempt
      modifies this`attempts, connection`dials, saver.fs`buffer, saver.fs`readings
      ensures Stocked() && Books() == Offline(old(Books()), a, world)
    {
      ghost var t := Books();
      var at := Observe();
      ghost var observed := Books();
      KeepReading(a, at);
      OfflineIs(t, observed, Books(), a, world);
      TryReconnect(a.now, a.again);
    }

    /** The turn's online branch. */
    method GoOnline(sensorData: SensorData)
      requires Valid()
      modifies this, saver, saver.fs`buffer, connection`wire
      ensures Valid() && Books() == Finish(Drain(old(Books()), world), sensorData, world)
    {
      DrainSaved();
      TransmitFresh(sensorData);
    }
  }
}
