/** Whole runs of the saver: any interleaving of `Begin`, `Write`, `Read`, reboots
    and power cuts behaves as a bounded FIFO with a batch counter. */
module StoreRuns {
  import opened Words
  import opened Protocol
  import opened Flash
  import opened PowerCuts
  import opened DataSaver

  /** `Cut` is a power failure inside `Write`; one inside `Read` is a `Read` whose
      output nobody got, then a reboot. */
  datatype Op =
    | Begin(outcome: Mount, createsBuffer: bool, createsReadings: bool)
    | Write(data: SensorData, opensBuffer: bool, opensReadings: bool)
    | Read(opensBuffer: bool, opensReadings: bool)
    | Reboot
    | Cut(data: SensorData, opensBuffer: bool, opensReadings: bool, stateLands: bool, dataLands: bool)

  /** The abstract saver: no bytes, no slots, no head or tail. `written` lists what
      was saved since the files were created; `clean` says that no power cut has
      left one file ahead of the other since. */
  datatype Store = Store(view: View<Entry>, mounted: bool, hasBuffer: bool, hasReadings: bool,
                         written: seq<SensorData>, clean: bool)

  const FACTORY: Store := Store(View([], false, 0), false, false, false, [], true)

  predicate Opens(s: Store, opensBuffer: bool, opensReadings: bool) {
    s.mounted && s.hasBuffer && s.hasReadings && opensBuffer && opensReadings
  }

  function StepStore(s: Store, op: Op): Store {
    match op
    case Begin(outcome, createsBuffer, createsReadings) =>
      var wiped := !s.mounted && outcome == Formats;
      var mounted := s.mounted || outcome != Fails;
      var hasBuffer := (s.hasBuffer && !wiped) || (mounted && createsBuffer);
      Store(if wiped then s.view.(queue := []) else s.view, mounted, hasBuffer,
            (s.hasReadings && !wiped) || (mounted && hasBuffer && createsReadings),
            if wiped then [] else s.written, s.clean || wiped)
    case Write(data, ob, or) =>
      s.(view := AfterWrite(s.view, Entry(data, true), Opens(s, ob, or)),
         written := if Opens(s, ob, or) then s.written + [data] else s.written)
    case Read(ob, or) => s.(view := AfterRead(s.view, Opens(s, ob, or)))
    case Reboot => s.(view := View(s.view.queue, false, 0), mounted := false)
    case Cut(data, ob, or, stateLands, dataLands) =>
      var opens := Opens(s, ob, or);
      s.(view := View(if opens then AfterCut(s.view.queue, data, stateLands, dataLands) else s.view.queue, false, 0),
         mounted := false,
         written := if opens && stateLands && dataLands then s.written + [data] else s.written,
         clean := s.clean && (opens ==> stateLands == dataLands))
  }

  /** What the caller gets from one operation. */
  function Output(s: Store, op: Op): seq<Entry> {
    if op.Read? && ReadSucceeds(s.view, Opens(s, op.opensBuffer, op.opensReadings)) then [s.view.queue[0]] else []
  }

  function Outputs(s: Store, ops: seq<Op>): seq<Entry>
    decreases |ops|
  {
    if ops == [] then [] else Output(s, ops[0]) + Outputs(StepStore(s, ops[0]), ops[1..])
  }

  function RunStore(s: Store, ops: seq<Op>): Store
    decreases |ops|
  {
    if ops == [] then s else RunStore(StepStore(s, ops[0]), ops[1..])
  }

  /** What one operation adds to the queue. */
  function Landing(s: Store, op: Op): seq<Entry> {
    match op
    case Write(data, ob, or) => if Opens(s, ob, or) then [Entry(data, true)] else []
    case Cut(data, ob, or, stateLands, dataLands) =>
      if Opens(s, ob, or) && stateLands then [Entry(data, dataLands)] else []
    case _ => []
  }

  /** The entries that were added, in order. */
  function Landed(s: Store, ops: seq<Op>): seq<Entry>
    decreases |ops|
  {
    if ops == [] then [] else Landing(s, ops[0]) + Landed(StepStore(s, ops[0]), ops[1..])
  }

  /** An entry is added to a full store. */
  predicate Overflowing(s: Store, op: Op) {
    |Landing(s, op)| > 0 && |s.view.queue| >= CIRCULAR_BUFFER_SIZE
  }

  function Overflows(s: Store, ops: seq<Op>): nat
    decreases |ops|
  {
    if ops == [] then 0
    else (if Overflowing(s, ops[0]) then 1 else 0) + Overflows(StepStore(s, ops[0]), ops[1..])
  }

  /** A power cut inside `Write` that spoils a place. */
  predicate Torn(s: Store, op: Op) {
    op.Cut? && Opens(s, op.opensBuffer, op.opensReadings) && Spoils(s.view.queue, op.stateLands, op.dataLands)
  }

  function TornCuts(s: Store, ops: seq<Op>): nat
    decreases |ops|
  {
    if ops == [] then 0 else (if Torn(s, ops[0]) then 1 else 0) + TornCuts(StepStore(s, ops[0]), ops[1..])
  }

  /** Every power cut let both files through or neither. */
  predicate NeverUneven(ops: seq<Op>) {
    forall i | 0 <= i < |ops| :: ops[i].Cut? ==> ops[i].stateLands == ops[i].dataLands
  }

  predicate NeverFormats(ops: seq<Op>) {
    forall i | 0 <= i < |ops| :: ops[i].Begin? ==> ops[i].outcome != Formats
  }

  // ---------------------------------------------------------------- the class

  /** The two files hold the store: every place that no cut has spoiled, and,
      without cuts, a readings file without gaps. */
  ghost predicate Stored(img: Image, s: Store) {
    && Faithful(img.readings, State(img), s.view.queue)
    && (s.clean ==> Contiguous(img, s.written))
  }

  /** The object and the file system are in the state the store says. */
  ghost predicate Shows(saver: DataSaver, s: Store)
    reads saver, saver.fs
  {
    && saver.Valid() && s.view.open == saver.bufferOpen && s.view.batch == saver.batchCount
    && s.mounted == saver.fs.mounted
    && s.hasBuffer == saver.fs.buffer.Some? && s.hasReadings == saver.fs.readings.Some?
    && |s.view.queue| == State(saver.fs.Disk()).count
  }

  /** What one operation does to the two files. */
  ghost predicate Effect(img: Image, img': Image, s: Store, op: Op)
    requires RingOk(State(img)) && |s.view.queue| == State(img).count
  {
    match op
    case Begin(outcome, _, _) => SameRing(img', if !s.mounted && outcome == Formats then Image([], []) else img)
    case Write(x, ob, or) => img' == if Opens(s, ob, or) then Written(img, x) else img
    case Read(ob, or) => img' == if ReadSucceeds(s.view, Opens(s, ob, or)) then Popped(img) else img
    case Reboot => img' == img
    case Cut(x, ob, or, stateLands, dataLands) =>
      img' == if Opens(s, ob, or) then Interrupted(img, x, stateLands, dataLands) else img
  }

  lemma EmptyStored(s: Store)
    requires |s.view.queue| == 0 && s.written == []
    ensures Stored(Image([], []), s)
  {
    EmptyIsSound([]);
  }

  lemma BeginStored(img: Image, img': Image, s: Store, op: Op)
    requires Stored(img, s) && op.Begin?
    requires SameRing(img', if !s.mounted && op.outcome == Formats then Image([], []) else img)
    ensures Stored(img', StepStore(s, op))
  {
    var s' := StepStore(s, op);
    if !s.mounted && op.outcome == Formats {
      EmptyStored(s');
    }
  }

  lemma CutStored(img: Image, s: Store, op: Op)
    requires Stored(img, s) && op.Cut? && Opens(s, op.opensBuffer, op.opensReadings)
    ensures Stored(Interrupted(img, op.data, op.stateLands, op.dataLands), StepStore(s, op))
  {
    CutKeeps(img, s.view.queue, op.data, op.stateLands, op.dataLands);
    if s.clean {
      WriteKeepsContiguous(img, s.written, op.data);
    }
  }

  lemma WriteStored(img: Image, s: Store, op: Op)
    requires Stored(img, s) && op.Write? && Opens(s, op.opensBuffer, op.opensReadings)
    ensures Stored(Written(img, op.data), StepStore(s, op))
  {
    CutKeeps(img, s.view.queue, op.data, true, true);
    if s.clean {
      WriteKeepsContiguous(img, s.written, op.data);
    }
  }

  lemma PopStored(img: Image, s: Store, s': Store)
    requires Stored(img, s) && |s.view.queue| > 0
    requires s'.view.queue == s.view.queue[1..] && s'.written == s.written && s'.clean == s.clean
    ensures Stored(Popped(img), s')
  {
    PopKeeps(img.readings, State(img), s.view.queue);
    StateOfWithState(img, Pop(State(img)));
  }

  /** Every operation turns files that hold the store into files that hold the next
      store. */
  lemma EffectStored(img: Image, img': Image, s: Store, op: Op)
    requires Stored(img, s) && Effect(img, img', s, op)
    ensures Stored(img', StepStore(s, op))
  {
    match op {
      case Begin(_, _, _) => BeginStored(img, img', s, op);
      case Write(_, ob, or) =>
        if Opens(s, ob, or) {
          WriteStored(img, s, op);
        }
      case Read(ob, or) =>
        if ReadSucceeds(s.view, Opens(s, ob, or)) {
          PopStored(img, s, StepStore(s, op));
        }
      case Reboot =>
      case Cut(_, ob, or, _, _) =>
        if Opens(s, ob, or) {
          CutStored(img, s, op);
        }
    }
  }

  /** Power goes and comes back: a new object over the same files. */
  method PowerCycle(saver: DataSaver) returns (next: DataSaver)
    requires RingOk(State(saver.fs.Disk()))
    modifies saver.fs`mounted
    ensures next.fs == saver.fs && fresh(next) && !saver.fs.mounted
    ensures next.Valid() && !next.bufferOpen && next.batchCount == 0
    ensures saver.fs.Disk() == old(saver.fs.Disk())
  {
    ghost var disk := saver.fs.Disk();
    saver.fs.mounted := false;
    assert saver.fs.Disk() == disk;
    next := new DataSaver(saver.fs);
  }

  lemma CutCount(img: Image, es: seq<Entry>, x: SensorData, stateLands: bool, dataLands: bool)
    requires RingOk(State(img)) && |es| == State(img).count
    ensures var st := State(Interrupted(img, x, stateLands, dataLands));
            RingOk(st) && st.count == |AfterCut(es, x, stateLands, dataLands)|
  {
    InterruptedQueue(img, x, stateLands, dataLands);
  }

  /** What an interrupted `Write` leaves in the files. */
  method CutFiles(saver: DataSaver, ghost s: Store, op: Op)
    requires Shows(saver, s) && op.Cut?
    modifies saver.fs`buffer, saver.fs`readings
    ensures saver.fs.buffer.Some? == s.hasBuffer && saver.fs.readings.Some? == s.hasReadings
    ensures Effect(old(saver.fs.Disk()), saver.fs.Disk(), s, op) && RingOk(State(saver.fs.Disk()))
    ensures State(saver.fs.Disk()).count == |StepStore(s, op).view.queue|
  {
    if saver.fs.Ready() && op.opensBuffer && op.opensReadings {
      CutCount(saver.fs.Disk(), s.view.queue, op.data, op.stateLands, op.dataLands);
      saver.WriteFiles(op.data, op.stateLands, op.dataLands);
    }
  }

  /** Power fails inside `Write`. */
  method PerformCut(saver: DataSaver, ghost s: Store, op: Op) returns (next: DataSaver)
    requires Shows(saver, s) && op.Cut?
    modifies saver.fs
    ensures next.fs == saver.fs && fresh(next)
    ensures Shows(next, StepStore(s, op)) && Effect(old(saver.fs.Disk()), next.fs.Disk(), s, op)
  {
    CutFiles(saver, s, op);
    next := PowerCycle(saver);
  }

  method PerformBegin(saver: DataSaver, ghost s: Store, op: Op)
    requires Shows(saver, s) && op.Begin?
    modifies saver.fs
    ensures Shows(saver, StepStore(s, op)) && Effect(old(saver.fs.Disk()), saver.fs.Disk(), s, op)
  {
    EmptyState([]);
    var _ := saver.Begin(op.outcome, op.createsBuffer, op.createsReadings);
  }

  method PerformWrite(saver: DataSaver, ghost s: Store, op: Op)
    requires Shows(saver, s) && op.Write?
    modifies saver.fs
    ensures Shows(saver, StepStore(s, op)) && Effect(old(saver.fs.Disk()), saver.fs.Disk(), s, op)
  {
    saver.Write(op.data, op.opensBuffer, op.opensReadings);
  }

  method PerformRead(saver: DataSaver, ghost s: Store, op: Op, variable: SensorData)
    returns (ok: bool, data: SensorData)
    requires Shows(saver, s) && op.Read?
    modifies saver, saver.fs
    ensures Shows(saver, StepStore(s, op)) && Effect(old(saver.fs.Disk()), saver.fs.Disk(), s, op)
    ensures ok == ReadSucceeds(s.view, Opens(s, op.opensBuffer, op.opensReadings))
    ensures ok ==> data == Fetched(old(saver.fs.Disk()).readings, State(old(saver.fs.Disk())).tail, variable)
  {
    ok, data := saver.Read(variable, op.opensBuffer, op.opensReadings);
  }

  /** What came out is what was meant, except where a place was spoiled. */
  ghost predicate Delivers(outputs: seq<SensorData>, es: seq<Entry>) {
    |outputs| == |es| && forall i | 0 <= i < |es| :: es[i].genuine ==> outputs[i] == es[i].reading
  }

  lemma FetchedDelivers(img: Image, s: Store, variable: SensorData)
    requires Stored(img, s) && |s.view.queue| > 0
    ensures Delivers([Fetched(img.readings, State(img).tail, variable)], [s.view.queue[0]])
  {
    OldestKept(img.readings, State(img), s.view.queue);
    FetchedIs(img.readings, State(img).tail, variable);
  }

  /** One operation on the class; a reboot keeps the files and nothing else. */
  method Perform(saver: DataSaver, ghost s: Store, op: Op, variable: SensorData)
    returns (next: DataSaver, ok: bool, data: SensorData)
    requires Shows(saver, s)
    modifies saver, saver.fs
    ensures next.fs == saver.fs && (next == saver || fresh(next))
    ensures Shows(next, StepStore(s, op)) && Effect(old(saver.fs.Disk()), next.fs.Disk(), s, op)
    ensures ok == (|Output(s, op)| > 0)
    ensures ok ==> data == Fetched(old(saver.fs.Disk()).readings, State(old(saver.fs.Disk())).tail, variable)
  {
    next, ok, data := saver, false, variable;
    match op {
      case Begin(_, _, _) => PerformBegin(saver, s, op);
      case Write(_, _, _) => PerformWrite(saver, s, op);
      case Read(_, _) => ok, data := PerformRead(saver, s, op, variable);
      case Reboot => next := PowerCycle(saver);
      case Cut(_, _, _, _, _) => next := PerformCut(saver, s, op);
    }
  }

  /** One operation, with what it keeps. */
  method PerformStored(saver: DataSaver, ghost s: Store, op: Op, variable: SensorData)
    returns (next: DataSaver, ok: bool, data: SensorData)
    requires Shows(saver, s) && Stored(saver.fs.Disk(), s)
    modifies saver, saver.fs
    ensures next.fs == saver.fs && (next == saver || fresh(next))
    ensures Shows(next, StepStore(s, op)) && Stored(next.fs.Disk(), StepStore(s, op))
    ensures Delivers(if ok then [data] else [], Output(s, op))
  {
    ghost var before := saver.fs.Disk();
    next, ok, data := Perform(saver, s, op, variable);
    EffectStored(before, next.fs.Disk(), s, op);
    if ok {
      FetchedDelivers(before, s, variable);
    }
  }

  method ReplayFrom(saver: DataSaver, ghost s: Store, ops: seq<Op>, variable: SensorData)
    returns (outputs: seq<SensorData>, left: Image)
    requires Shows(saver, s) && Stored(saver.fs.Disk(), s)
    modifies saver, saver.fs
    ensures Stored(left, RunStore(s, ops))
    ensures Delivers(outputs, Outputs(s, ops))
    decreases |ops|
  {
    if ops == [] {
      return [], saver.fs.Disk();
    }
    var next, ok, data := PerformStored(saver, s, ops[0], variable);
    var later;
    later, left := ReplayFrom(next, StepStore(s, ops[0]), ops[1..], data);
    outputs := (if ok then [data] else []) + later;
    DeliversMore(if ok then [data] else [], Output(s, ops[0]), later, Outputs(StepStore(s, ops[0]), ops[1..]));
  }

  lemma DeliversMore(a: seq<SensorData>, es: seq<Entry>, b: seq<SensorData>, fs: seq<Entry>)
    requires Delivers(a, es) && Delivers(b, fs)
    ensures Delivers(a + b, es + fs)
  {
  }

  /** The saver over an empty flash. */
  method FirstSaver() returns (saver: DataSaver)
    ensures fresh(saver) && fresh(saver.fs) && Shows(saver, FACTORY) && Stored(saver.fs.Disk(), FACTORY)
  {
    var fs := new LittleFs(None, None);
    EmptyState([]);
    assert fs.Disk() == Image([], []);
    saver := new DataSaver(fs);
    EmptyStored(FACTORY);
  }

  method ReplayFiles(ops: seq<Op>) returns (outputs: seq<SensorData>, left: Image)
    ensures Delivers(outputs, Outputs(FACTORY, ops))
    ensures Stored(left, RunStore(FACTORY, ops))
  {
    var saver := FirstSaver();
    outputs, left := ReplayFrom(saver, FACTORY, ops, SensorData(0, 0, 0, 0));
  }

  /** The two-file ring replays every run of the abstract store. What reads hand
      out and what is left in the files is what was meant, but for the spoiled
      places, and there are no more of those than torn writes. If no cut let one
      file alone through, the readings file is exactly as long as the slots in use. */
  method Replay(ops: seq<Op>) returns (outputs: seq<SensorData>, left: Image)
    ensures Delivers(outputs, Outputs(FACTORY, ops))
    ensures Stored(left, RunStore(FACTORY, ops))
    ensures Spoiled(Outputs(FACTORY, ops)) + Spoiled(RunStore(FACTORY, ops).view.queue) <= TornCuts(FACTORY, ops)
    ensures TornCuts(FACTORY, ops) == 0 ==>
              outputs == Meant(Outputs(FACTORY, ops)) && Queue(left) == Meant(RunStore(FACTORY, ops).view.queue)
    ensures NeverUneven(ops) ==> Contiguous(left, RunStore(FACTORY, ops).written)
  {
    outputs, left := ReplayFiles(ops);
    if NeverUneven(ops) {
      StaysClean(FACTORY, ops);
    }
    CutsSpoilOneEach(FACTORY, ops);
    CleanReplay(ops, outputs, left);
  }

  /** Without power cuts nothing is spoiled. */
  lemma CleanReplay(ops: seq<Op>, outputs: seq<SensorData>, left: Image)
    requires Delivers(outputs, Outputs(FACTORY, ops)) && Stored(left, RunStore(FACTORY, ops))
    ensures TornCuts(FACTORY, ops) == 0 ==>
              outputs == Meant(Outputs(FACTORY, ops)) && Queue(left) == Meant(RunStore(FACTORY, ops).view.queue)
  {
    if TornCuts(FACTORY, ops) == 0 {
      UntornGenuine(ops);
      DeliversMeant(outputs, Outputs(FACTORY, ops));
      StoredMeant(left, RunStore(FACTORY, ops));
    }
  }

  lemma DeliversMeant(outputs: seq<SensorData>, es: seq<Entry>)
    requires Delivers(outputs, es) && AllGenuine(es)
    ensures outputs == Meant(es)
  {
  }

  lemma StoredMeant(img: Image, s: Store)
    requires Stored(img, s) && AllGenuine(s.view.queue)
    ensures Queue(img) == Meant(s.view.queue)
  {
    FaithfulMeant(img.readings, State(img), s.view.queue);
  }

  // ---------------------------------------------------------------- damage

  lemma StepSpoils(s: Store, op: Op)
    ensures Spoiled(Output(s, op)) + Spoiled(StepStore(s, op).view.queue) <=
            Spoiled(s.view.queue) + if Torn(s, op) then 1 else 0
  {
    match op {
      case Write(x, _, _) => SpoiledPush(s.view.queue, Entry(x, true));
      case Cut(x, _, _, stateLands, dataLands) => CutSpoilsOne(s.view.queue, x, stateLands, dataLands);
      case Read(_, _) =>
        if Output(s, op) != [] {
          SpoiledOne(s.view.queue[0]);
        }
      case _ =>
    }
  }

  /** Over every run each torn write spoils at most one reading, whether it has been
      read since or is still stored; other power cuts spoil none. */
  lemma {:induction false} CutsSpoilOneEach(s: Store, ops: seq<Op>)
    ensures Spoiled(Outputs(s, ops)) + Spoiled(RunStore(s, ops).view.queue) <=
            Spoiled(s.view.queue) + TornCuts(s, ops)
    decreases |ops|
  {
    if ops != [] {
      StepSpoils(s, ops[0]);
      CutsSpoilOneEach(StepStore(s, ops[0]), ops[1..]);
      SpoiledAppend(Output(s, ops[0]), Outputs(StepStore(s, ops[0]), ops[1..]));
    }
  }

  lemma {:induction false} StaysClean(s: Store, ops: seq<Op>)
    requires s.clean && NeverUneven(ops)
    ensures RunStore(s, ops).clean
    decreases |ops|
  {
    if ops != [] {
      assert NeverUneven(ops[1..]);
      StaysClean(StepStore(s, ops[0]), ops[1..]);
    }
  }

  lemma UntornGenuine(ops: seq<Op>)
    requires TornCuts(FACTORY, ops) == 0
    ensures AllGenuine(Outputs(FACTORY, ops)) && AllGenuine(RunStore(FACTORY, ops).view.queue)
  {
    CutsSpoilOneEach(FACTORY, ops);
    NoneSpoiled(Outputs(FACTORY, ops));
    NoneSpoiled(RunStore(FACTORY, ops).view.queue);
  }

  /** Without cuts the queue is the end of the write history. */
  predicate Ends(q: seq<Entry>, written: seq<SensorData>) {
    |q| <= |written| && forall i | 0 <= i < |q| :: q[i] == Entry(written[|written| - |q| + i], true)
  }

  lemma PushEnds(q: seq<Entry>, written: seq<SensorData>, x: SensorData)
    requires Ends(q, written)
    ensures Ends(Push(q, Entry(x, true)), written + [x])
  {
  }

  lemma StepEnds(s: Store, op: Op)
    requires s.clean ==> Ends(s.view.queue, s.written)
    ensures StepStore(s, op).clean ==> Ends(StepStore(s, op).view.queue, StepStore(s, op).written)
  {
    if s.clean && (op.Write? || op.Cut?) {
      PushEnds(s.view.queue, s.written, op.data);
    }
  }

  lemma {:induction false} QueueEndsHistory(s: Store, ops: seq<Op>)
    requires s.clean ==> Ends(s.view.queue, s.written)
    ensures RunStore(s, ops).clean ==> Ends(RunStore(s, ops).view.queue, RunStore(s, ops).written)
    decreases |ops|
  {
    if ops != [] {
      StepEnds(s, ops[0]);
      QueueEndsHistory(StepStore(s, ops[0]), ops[1..]);
    }
  }

  /** A cut can spoil a reading that is handed out later. */
  lemma SpoiledIsRead(x: SensorData) returns (ops: seq<Op>)
    ensures TornCuts(FACTORY, ops) == 1 && Outputs(FACTORY, ops) == [Entry(x, false)]
  {
    var begin, cut, read := Begin(Mounts, true, true), Cut(x, true, true, true, false), Read(true, true);
    var s1 := Store(View([], false, 0), true, true, true, [], true);
    var s2 := s1.(view := View([Entry(x, false)], false, 0), mounted := false, clean := false);
    assert StepStore(FACTORY, begin) == s1 && StepStore(s1, cut) == s2;
    ReadFirst(s2.(mounted := true), read);
    OneStep(s2, begin, [read]);
    OneStep(s1, cut, [begin] + [read]);
    OneStep(FACTORY, begin, [cut] + ([begin] + [read]));
    ops := [begin] + ([cut] + ([begin] + [read]));
  }

  lemma OneStep(s: Store, op: Op, ops: seq<Op>)
    ensures Outputs(s, [op] + ops) == Output(s, op) + Outputs(StepStore(s, op), ops)
    ensures TornCuts(s, [op] + ops) == (if Torn(s, op) then 1 else 0) + TornCuts(StepStore(s, op), ops)
  {
    assert ([op] + ops)[1..] == ops;
  }

  lemma ReadFirst(s: Store, read: Op)
    requires read == Read(true, true) && Opens(s, true, true) && |s.view.queue| == 1 && s.view.batch == 0
    ensures Outputs(s, [read]) == s.view.queue && TornCuts(s, [read]) == 0
  {
    assert [read][1..] == [];
    assert s.view.queue == [s.view.queue[0]];
  }

  // ---------------------------------------------------------------- first in, first out

  /** `a` is `b` with some entries left out. */
  predicate Subsequence<T(==)>(a: seq<T>, b: seq<T>)
    decreases |b|
  {
    if a == [] then true
    else if b == [] then false
    else (a[0] == b[0] && Subsequence(a[1..], b[1..])) || Subsequence(a, b[1..])
  }

  lemma SubsequenceChain<T>(a: seq<T>, left: seq<T>, later: seq<T>, rest: seq<T>)
    requires |left| <= 1 && (a == [] || a == left) && Subsequence(later, rest)
    ensures Subsequence(a + later, left + rest)
  {
    assert [] + later == later && [] + rest == rest;
    if left != [] {
      assert (left + rest)[1..] == rest && (left + later)[1..] == later;
    }
  }

  /** First in, first out over every run without a format, power cuts included:
      `taken` is what left the store; the readings that came out are among it, in
      order, and every other one was pushed out of a full ring by a later one; and
      what was stored, then what was added, is what left, then what is left. */
  lemma {:induction false} RunIsFifo(s: Store, ops: seq<Op>) returns (taken: seq<Entry>)
    requires NeverFormats(ops) && ViewOk(s.view)
    ensures Subsequence(Outputs(s, ops), taken)
    ensures |taken| == |Outputs(s, ops)| + Overflows(s, ops)
    ensures Agree(s.view.queue + Landed(s, ops), taken + RunStore(s, ops).view.queue)
    ensures ViewOk(RunStore(s, ops).view)
    decreases |ops|
  {
    if ops == [] {
      taken := [];
      assert s.view.queue + [] == [] + s.view.queue;
    } else {
      assert NeverFormats(ops[1..]);
      var next := StepStore(s, ops[0]);
      var left := StepTakes(s, ops[0]);
      var rest := RunIsFifo(next, ops[1..]);
      taken := left + rest;
      SubsequenceChain(Output(s, ops[0]), left, Outputs(next, ops[1..]), rest);
      AgreeChain(s.view.queue, Landing(s, ops[0]), left, next.view.queue,
                 Landed(next, ops[1..]), rest, RunStore(next, ops[1..]).view.queue);
      RunStarts(s, ops);
    }
  }

  lemma RunStarts(s: Store, ops: seq<Op>)
    requires ops != []
    ensures var next := StepStore(s, ops[0]);
            && Landed(s, ops) == Landing(s, ops[0]) + Landed(next, ops[1..])
            && RunStore(s, ops) == RunStore(next, ops[1..])
            && Outputs(s, ops) == Output(s, ops[0]) + Outputs(next, ops[1..])
            && Overflows(s, ops) == (if Overflowing(s, ops[0]) then 1 else 0) + Overflows(next, ops[1..])
  {
  }

  lemma StepTakes(s: Store, op: Op) returns (left: seq<Entry>)
    requires (op.Begin? ==> op.outcome != Formats) && ViewOk(s.view)
    ensures |left| == |Output(s, op)| + if Overflowing(s, op) then 1 else 0
    ensures |left| <= 1 && (Output(s, op) == [] || Output(s, op) == left)
    ensures Agree(s.view.queue + Landing(s, op), left + StepStore(s, op).view.queue)
    ensures ViewOk(StepStore(s, op).view)
  {
    left := if Output(s, op) != [] || Overflowing(s, op) then [s.view.queue[0]] else [];
  }

  // ---------------------------------------------------------------- batches

  predicate NoRestart(ops: seq<Op>) {
    forall i | 0 <= i < |ops| :: !ops[i].Reboot? && !ops[i].Cut? && (ops[i].Begin? ==> ops[i].outcome != Formats)
  }

  function ReadsIn(ops: seq<Op>): nat {
    if ops == [] then 0 else (if ops[0].Read? then 1 else 0) + ReadsIn(ops[1..])
  }

  /** A batch ends after 51 readings whatever is written in between: if every read
      of a stretch succeeds, the stretch has no more reads than the batch has
      room. */
  lemma {:induction false} BatchIsBounded(s: Store, ops: seq<Op>)
    requires NoRestart(ops) && ViewOk(s.view)
    requires |Outputs(s, ops)| == ReadsIn(ops)
    ensures ReadsIn(ops) <= MAX_READINGS_PER_BATCH + 1 - s.view.batch
    decreases |ops|
  {
    if ops != [] {
      OutputsFew(StepStore(s, ops[0]), ops[1..]);
      assert NoRestart(ops[1..]);
      BatchIsBounded(StepStore(s, ops[0]), ops[1..]);
    }
  }

  function ReadTimes(k: nat): (ops: seq<Op>)
    ensures |ops| == k
  {
    if k == 0 then [] else [Read(true, true)] + ReadTimes(k - 1)
  }

  /** What `k` reads in a row serve, from a batch counter. */
  function Served(batch: nat, k: nat): (n: nat)
    requires batch <= 51
    ensures n <= k
  {
    k - (batch + k) / 52
  }

  lemma ServedStep(batch: nat, k: nat)
    requires batch <= 51 && k > 0
    ensures Served(batch, k) == if batch <= 50 then 1 + Served(batch + 1, k - 1) else Served(0, k - 1)
  {
  }

  /** From a store that holds enough, `k` reads in a row hand out the oldest readings in
      order, and every 52nd of them, counted from the start of the batch, hands out
      nothing. */
  lemma {:induction false} EveryBatchPauses(s: Store, k: nat)
    requires Opens(s, true, true) && ViewOk(s.view) && k <= |s.view.queue|
    ensures Outputs(s, ReadTimes(k)) == s.view.queue[..k - (s.view.batch + k) / 52]
    decreases k
  {
    if k > 0 {
      ReadsFirst(s, k);
      ReadStep(s);
      ServedStep(s.view.batch, k);
      EveryBatchPauses(StepStore(s, Read(true, true)), k - 1);
      if s.view.batch <= 50 {
        FirstOf(s.view.queue, Served(s.view.batch + 1, k - 1));
      }
    }
  }

  lemma ReadStep(s: Store)
    requires Opens(s, true, true) && ViewOk(s.view) && s.view.queue != []
    ensures var next, q := StepStore(s, Read(true, true)), s.view.queue;
            && Opens(next, true, true)
            && next.view == (if s.view.batch <= 50 then View(q[1..], true, s.view.batch + 1) else View(q, false, 0))
            && Output(s, Read(true, true)) == if s.view.batch <= 50 then [q[0]] else []
  {
  }

  lemma FirstOf<T>(q: seq<T>, n: nat)
    requires n < |q|
    ensures [q[0]] + q[1..][..n] == q[..n + 1]
  {
  }

  lemma ReadsFirst(s: Store, k: nat)
    requires k > 0
    ensures Outputs(s, ReadTimes(k)) ==
            Output(s, Read(true, true)) + Outputs(StepStore(s, Read(true, true)), ReadTimes(k - 1))
  {
    assert ReadTimes(k)[1..] == ReadTimes(k - 1);
  }

  lemma {:induction false} OutputsFew(s: Store, ops: seq<Op>)
    ensures |Outputs(s, ops)| <= ReadsIn(ops)
    decreases |ops|
  {
    if ops != [] {
      OutputsFew(StepStore(s, ops[0]), ops[1..]);
    }
  }
}
