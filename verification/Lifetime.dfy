/** The sensor's whole life: one boot after another, each a run of the network task
    over the files the last one left, each ended by a loss of power. */
module Lifetime {
  import opened Words
  import opened Text
  import opened Protocol
  import opened Flash
  import opened PowerCuts
  import opened DataSaver
  import opened NetworkTask
  import StoreRuns

  /** A loss of power inside `Write`, while this reading was being saved. */
  datatype Cut = Cut(reading: SensorData, stateLands: bool, dataLands: bool)

  /** Where power goes: between two activations, inside `Write`, or inside a drain after
      some turns, perhaps with a reading in hand. */
  datatype Loss = Between | InWrite(cut: Cut) | InDrain(turns: nat, inHand: bool)

  datatype Boot = Boot(acts: seq<Activation>, world: World, loss: Loss)

  /** The task's books when power goes. */
  function LastBooks(queue: seq<Entry>, b: Boot): Task {
    var t := Run(Started(queue), b.acts, b.world);
    if b.loss.InDrain? then Halted(t, b.world, b.loss.turns, b.loss.inHand) else t
  }

  /** The books of a life: what is stored, what was ever saved, what left the store with
      its fate, what arrived, and the frames sent. */
  datatype Life = Life(queue: seq<Entry>, written: seq<Entry>, gone: seq<Gone>, arrived: seq<Arrival>, sent: seq<Sent>)

  const NEWBORN: Life := Life([], [], [], [], [])

  /** One boot up to the loss of power. */
  function AfterTask(l: Life, t: Task): Life {
    Life(t.saver.queue, l.written + ArrivedAs(t.arrived, Saved), l.gone + t.gone, l.arrived + t.arrived,
         l.sent + t.sent)
  }

  /** What a torn `Write` adds: a landed state makes a place, and pushes the oldest out
      of a full ring. */
  function AfterLoss(l: Life, c: Cut): Life {
    Life(AfterCut(l.queue, c.reading, c.stateLands, c.dataLands),
         if c.stateLands then l.written + [Entry(c.reading, c.dataLands)] else l.written,
         if c.stateLands && |l.queue| >= CIRCULAR_BUFFER_SIZE then l.gone + [Gone(l.queue[0], Overwritten)] else l.gone,
         l.arrived, l.sent)
  }

  function AfterBoot(l: Life, b: Boot): Life {
    var l1 := AfterTask(l, LastBooks(l.queue, b));
    if b.loss.InWrite? then AfterLoss(l1, b.loss.cut) else l1
  }

  function Live(l: Life, boots: seq<Boot>): Life
    decreases |boots|
  {
    if boots == [] then l else Live(AfterBoot(l, boots[0]), boots[1..])
  }

  /** The frames sent in these boots. */
  function SentIn(l: Life, boots: seq<Boot>): seq<Sent>
    decreases |boots|
  {
    if boots == [] then []
    else LastBooks(l.queue, boots[0]).sent + SentIn(AfterBoot(l, boots[0]), boots[1..])
  }

  lemma {:induction false} LiveSends(l: Life, boots: seq<Boot>)
    ensures Live(l, boots).sent == l.sent + SentIn(l, boots)
    decreases |boots|
  {
    if boots == [] {
      assert l.sent + [] == l.sent;
    } else {
      LiveSends(AfterBoot(l, boots[0]), boots[1..]);
      Regroup(l.sent, LastBooks(l.queue, boots[0]).sent,
              SentIn(AfterBoot(l, boots[0]), boots[1..]));
    }
  }

  /** The power cuts that spoil a place. */
  function Tears(l: Life, boots: seq<Boot>): nat
    decreases |boots|
  {
    if boots == [] then 0 else (if TearsOne(l, boots[0]) then 1 else 0) + Tears(AfterBoot(l, boots[0]), boots[1..])
  }

  predicate TearsOne(l: Life, b: Boot) {
    b.loss.InWrite? && Spoils(LastBooks(l.queue, b).saver.queue, b.loss.cut.stateLands, b.loss.cut.dataLands)
  }

  /** The ledger of a life: everything ever saved has left the store with one fate or is
      stored, position by position, spoiled places aside; nothing is overwritten
      before a whole ring was saved after it; the history frames are the places with
      fate `SentAsHistory`, the fresh ones the arrivals with fate `SentAsFresh`. */
  ghost predicate LifeOk(l: Life) {
    && Agree(l.written, Places(l.gone) + l.queue) && OverwrittenLate(l.gone, |l.written|)
    && |l.queue| <= CIRCULAR_BUFFER_SIZE && HistoryOk(l.sent, l.gone)
    && Framed(l.sent, NEW_SENSOR_READING_TAG) == ArrivedAs(l.arrived, SentAsFresh)
  }

  function Damage(l: Life): nat {
    Spoiled(Places(l.gone)) + Spoiled(l.queue)
  }

  // ---------------------------------------------------------------- lists

  lemma PlacesConcat(a: seq<Gone>, b: seq<Gone>)
    ensures Places(a + b) == Places(a) + Places(b)
  {
  }

  lemma {:induction false} SentAsOldConcat(a: seq<Gone>, b: seq<Gone>)
    ensures SentAsOld(a + b) == SentAsOld(a) + SentAsOld(b)
  {
    if b == [] {
      assert a + b == a;
    } else {
      var n := |b| - 1;
      SentAsOldConcat(a, b[..n]);
      assert (a + b)[..|a + b| - 1] == a + b[..n];
    }
  }

  lemma {:induction false} FramedConcat(a: seq<Sent>, b: seq<Sent>, tag: string)
    ensures Framed(a + b, tag) == Framed(a, tag) + Framed(b, tag)
  {
    if b == [] {
      assert a + b == a;
    } else {
      var n := |b| - 1;
      FramedConcat(a, b[..n], tag);
      assert (a + b)[..|a + b| - 1] == a + b[..n];
    }
  }

  lemma {:induction false} ArrivedConcat(a: seq<Arrival>, b: seq<Arrival>, fate: ArrivalFate)
    ensures ArrivedAs(a + b, fate) == ArrivedAs(a, fate) + ArrivedAs(b, fate)
  {
    if b == [] {
      assert a + b == a;
    } else {
      var n := |b| - 1;
      ArrivedConcat(a, b[..n], fate);
      assert (a + b)[..|a + b| - 1] == a + b[..n];
    }
  }

  lemma {:induction false} ArrivedUnspoiled(arrived: seq<Arrival>, fate: ArrivalFate)
    ensures Spoiled(ArrivedAs(arrived, fate)) == 0
  {
    if arrived != [] {
      var before, last := arrived[..|arrived| - 1], arrived[|arrived| - 1];
      ArrivedUnspoiled(before, fate);
      SpoiledAppend(ArrivedAs(before, fate), if last.fate == fate then [Entry(last.reading, true)] else []);
      SpoiledOne(Entry(last.reading, true));
    }
  }

  // ---------------------------------------------------------------- one boot

  lemma StartedBalanced(queue: seq<Entry>)
    requires |queue| <= CIRCULAR_BUFFER_SIZE
    ensures Balanced(Started(queue))
  {
    assert queue == queue + [] && queue == [] + queue;
  }

  lemma TaskAgrees(l: Life, t: Task)
    requires Agree(l.written, Places(l.gone) + l.queue) && OverwrittenLate(l.gone, |l.written|)
    requires t.carried == l.queue && t.written == t.carried + ArrivedAs(t.arrived, Saved)
    requires LedgerOk(t.written, t.gone, t.saver.queue)
    ensures var l1 := AfterTask(l, t);
            Agree(l1.written, Places(l1.gone) + l1.queue) && OverwrittenLate(l1.gone, |l1.written|)
  {
    var more := ArrivedAs(t.arrived, Saved);
    PlacesConcat(l.gone, t.gone);
    AgreeAppend(l.written, Places(l.gone) + l.queue, more);
    assert Places(l.gone) + l.queue + more == Places(l.gone) + (l.queue + more);
    assert Places(l.gone) + t.written == Places(l.gone) + Places(t.gone) + t.saver.queue;
    LaterGone(l.gone, t.gone, |l.written|, |t.written|, |l.queue|);
  }

  lemma LaterGone(a: seq<Gone>, b: seq<Gone>, n: nat, m: nat, carried: nat)
    requires OverwrittenLate(a, n) && OverwrittenLate(b, m) && n == |a| + carried && carried <= m
    ensures OverwrittenLate(a + b, n + m - carried)
  {
    forall i | 0 <= i < |a + b| && (a + b)[i].fate == Overwritten
      ensures i + CIRCULAR_BUFFER_SIZE < n + m - carried
    {
      if i >= |a| {
        assert b[i - |a|].fate == Overwritten;
      } else {
        assert a[i].fate == Overwritten;
      }
    }
  }

  lemma TaskFrames(l: Life, t: Task)
    requires HistoryOk(l.sent, l.gone) && HistoryOk(t.sent, t.gone)
    requires Framed(l.sent, NEW_SENSOR_READING_TAG) == ArrivedAs(l.arrived, SentAsFresh)
    requires Framed(t.sent, NEW_SENSOR_READING_TAG) == ArrivedAs(t.arrived, SentAsFresh)
    ensures var l1 := AfterTask(l, t);
            HistoryOk(l1.sent, l1.gone) &&
            Framed(l1.sent, NEW_SENSOR_READING_TAG) == ArrivedAs(l1.arrived, SentAsFresh)
  {
    FramedConcat(l.sent, t.sent, OLD_SENSOR_READING_TAG);
    FramedConcat(l.sent, t.sent, NEW_SENSOR_READING_TAG);
    SentAsOldConcat(l.gone, t.gone);
    ArrivedConcat(l.arrived, t.arrived, SentAsFresh);
  }

  /** A run of the task damages nothing. */
  lemma TaskDamage(l: Life, t: Task)
    requires t.carried == l.queue && t.written == t.carried + ArrivedAs(t.arrived, Saved)
    requires t.written == Places(t.gone) + t.saver.queue
    ensures Damage(AfterTask(l, t)) == Damage(l)
  {
    PlacesConcat(l.gone, t.gone);
    SpoiledAppend(Places(l.gone), Places(t.gone));
    SpoiledAppend(Places(t.gone), t.saver.queue);
    SpoiledAppend(l.queue, ArrivedAs(t.arrived, Saved));
    ArrivedUnspoiled(t.arrived, Saved);
  }

  lemma LastBalanced(queue: seq<Entry>, b: Boot)
    requires |queue| <= CIRCULAR_BUFFER_SIZE
    ensures Balanced(LastBooks(queue, b)) && LastBooks(queue, b).carried == queue
  {
    StartedBalanced(queue);
    RunBalanced(Started(queue), b.acts, b.world);
    RunCarries(Started(queue), b.acts, b.world);
    if b.loss.InDrain? {
      HaltedBalanced(Run(Started(queue), b.acts, b.world), b.world, b.loss.turns, b.loss.inHand);
    }
  }

  lemma TaskKeeps(l: Life, b: Boot)
    requires LifeOk(l)
    ensures LifeOk(AfterTask(l, LastBooks(l.queue, b))) && Damage(AfterTask(l, LastBooks(l.queue, b))) == Damage(l)
  {
    var t := LastBooks(l.queue, b);
    LastBalanced(l.queue, b);
    TaskAgrees(l, t);
    TaskFrames(l, t);
    TaskDamage(l, t);
  }

  lemma {:induction false} RunCarries(t: Task, acts: seq<Activation>, world: World)
    ensures Run(t, acts, world).carried == t.carried
    decreases |acts|
  {
    if acts != [] {
      DrainKeepsAttempts(t.(moment := t.moment + 1), world);
      RunCarries(Activate(t, acts[0], world), acts[1..], world);
    }
  }

  // ---------------------------------------------------------------- one loss of power

  lemma LossAgrees(l: Life, c: Cut)
    requires Agree(l.written, Places(l.gone) + l.queue) && OverwrittenLate(l.gone, |l.written|)
    ensures var l1 := AfterLoss(l, c);
            Agree(l1.written, Places(l1.gone) + l1.queue) && OverwrittenLate(l1.gone, |l1.written|)
  {
    if c.stateLands {
      PushAgrees(l, Entry(c.reading, c.dataLands));
    }
  }

  lemma PushAgrees(l: Life, e: Entry)
    requires Agree(l.written, Places(l.gone) + l.queue) && OverwrittenLate(l.gone, |l.written|)
    ensures var gone := if |l.queue| >= CIRCULAR_BUFFER_SIZE then l.gone + [Gone(l.queue[0], Overwritten)] else l.gone;
            Agree(l.written + [e], Places(gone) + Push(l.queue, e)) && OverwrittenLate(gone, |l.written| + 1)
  {
    AgreeAppend(l.written, Places(l.gone) + l.queue, [e]);
    assert Places(l.gone) + l.queue + [e] == Places(l.gone) + (l.queue + [e]);
    if |l.queue| >= CIRCULAR_BUFFER_SIZE {
      PlacesConcat(l.gone, [Gone(l.queue[0], Overwritten)]);
      assert Places([Gone(l.queue[0], Overwritten)]) == [l.queue[0]];
      assert Places(l.gone) + (l.queue + [e]) == Places(l.gone) + [l.queue[0]] + (l.queue[1..] + [e]);
    }
  }

  lemma LossFrames(l: Life, c: Cut)
    requires HistoryOk(l.sent, l.gone)
    ensures HistoryOk(AfterLoss(l, c).sent, AfterLoss(l, c).gone)
  {
    if c.stateLands && |l.queue| >= CIRCULAR_BUFFER_SIZE {
      LostHistory(l.sent, l.gone, Gone(l.queue[0], Overwritten));
    }
  }

  lemma LossDamage(l: Life, c: Cut)
    ensures Damage(AfterLoss(l, c)) <= Damage(l) + if Spoils(l.queue, c.stateLands, c.dataLands) then 1 else 0
  {
    CutSpoilsOne(l.queue, c.reading, c.stateLands, c.dataLands);
    if c.stateLands && |l.queue| >= CIRCULAR_BUFFER_SIZE {
      var oldest, e := l.queue[0], Entry(c.reading, c.dataLands);
      PlacesConcat(l.gone, [Gone(oldest, Overwritten)]);
      assert Places([Gone(oldest, Overwritten)]) == [oldest];
      SpoiledAppend(Places(l.gone), [oldest]);
      SpoiledOne(oldest);
      SpoiledOne(e);
      SpoiledAppend(l.queue[1..], [e]);
    }
  }

  lemma LossKeeps(l: Life, c: Cut)
    requires LifeOk(l)
    ensures LifeOk(AfterLoss(l, c))
  {
    LossAgrees(l, c);
    LossFrames(l, c);
  }

  // ---------------------------------------------------------------- a life

  lemma BootKeeps(l: Life, b: Boot)
    requires LifeOk(l)
    ensures LifeOk(AfterBoot(l, b)) && Damage(AfterBoot(l, b)) <= Damage(l) + if TearsOne(l, b) then 1 else 0
  {
    TaskKeeps(l, b);
    var l1 := AfterTask(l, LastBooks(l.queue, b));
    if b.loss.InWrite? {
      LossKeeps(l1, b.loss.cut);
      LossDamage(l1, b.loss.cut);
    }
  }

  /** The ledger holds over any list of boots and power losses, and each torn write
      damages one reading at most: the spoiled places that were sent, lost or
      overwritten and those still stored are together no more than the torn writes. */
  lemma {:induction false} LifeKeeps(l: Life, boots: seq<Boot>)
    requires LifeOk(l)
    ensures LifeOk(Live(l, boots)) && Damage(Live(l, boots)) <= Damage(l) + Tears(l, boots)
    decreases |boots|
  {
    if boots != [] {
      BootKeeps(l, boots[0]);
      LifeKeeps(AfterBoot(l, boots[0]), boots[1..]);
    }
  }

  lemma NewbornOk()
    ensures LifeOk(NEWBORN) && Damage(NEWBORN) == 0
  {
  }

  // ---------------------------------------------------------------- the code, run

  lemma {:induction false} WireTextConcat(a: seq<Packet>, b: seq<Packet>)
    ensures WireText(a + b) == WireText(a) + WireText(b)
  {
    if b == [] {
      assert a + b == a && WireText(a) + "" == WireText(a);
    } else {
      var before, last := b[..|b| - 1], b[|b| - 1];
      assert b == before + [last] && a + b == (a + before) + [last];
      WireTextConcat(a, before);
      WireTextAppend(a, before, last);
    }
  }

  lemma WireTextAppend(a: seq<Packet>, b: seq<Packet>, last: Packet)
    requires WireText(a + b) == WireText(a) + WireText(b)
    ensures WireText((a + b) + [last]) == WireText(a) + WireText(b + [last])
  {
    WireTextMore(a + b, last);
    WireTextMore(b, last);
    Regroup(WireText(a), WireText(b), Frame(last.reading, last.tag));
    Regroup(WireText(a), WireText(b) + Frame(last.reading, last.tag), "\r\n");
  }

  lemma CarriesConcat(a: seq<Packet>, s: seq<Sent>, b: seq<Packet>, r: seq<Sent>)
    requires Carries(a, s) && Carries(b, r)
    ensures Carries(a + b, s + r)
  {
  }

  /** The saver over an empty flash. */
  method Factory() returns (saver: DataSaver)
    ensures fresh(saver) && fresh(saver.fs) && Idle(saver, [])
  {
    var fs := new LittleFs(None, None);
    EmptyState([]);
    assert fs.Disk() == Image([], []);
    saver := new DataSaver(fs);
  }

  /** The saver just after power-on, over files that hold these places. */
  ghost predicate Idle(saver: DataSaver, es: seq<Entry>)
    reads saver, saver.fs
  {
    && saver.Valid() && !saver.fs.mounted && !saver.bufferOpen && saver.batchCount == 0
    && Faithful(saver.fs.Disk().readings, State(saver.fs.Disk()), es)
  }

  method RunTask(task: NetworkTask, acts: seq<Activation>)
    requires task.Valid()
    modifies task, task.saver, task.saver.fs`buffer, task.saver.fs`readings, task.connection
    ensures task.Valid() && task.Books() == Run(old(task.Books()), acts, task.world)
    decreases |acts|
  {
    if acts != [] {
      task.OnReading(acts[0].reading, acts[0].timeConfigured, acts[0].now, acts[0].again);
      RunTask(task, acts[1..]);
    }
  }

  /** `Begin`, then the task, until power goes. */
  method RunBoot(saver: DataSaver, b: Boot, ghost es: seq<Entry>) returns (wire: string, ghost packets: seq<Packet>)
    requires Idle(saver, es)
    modifies saver, saver.fs
    ensures Stocks(saver, LastBooks(es, b).saver.queue)
    ensures wire == WireText(packets) && Carries(packets, LastBooks(es, b).sent)
  {
    var _ := saver.Begin(Mounts, true, true);
    var task := new NetworkTask(saver, b.world, es);
    RunTask(task, b.acts);
    if b.loss.InDrain? {
      task.Halt(b.loss.turns, b.loss.inHand);
    }
    wire, packets := task.connection.wire, task.packets;
  }

  /** What is stored when power is back. */
  function Survivors(es: seq<Entry>, loss: Loss): seq<Entry> {
    if loss.InWrite? then AfterCut(es, loss.cut.reading, loss.cut.stateLands, loss.cut.dataLands) else es
  }

  /** Power goes, inside `Write` or outside, and comes back. */
  method LosePower(saver: DataSaver, loss: Loss, ghost es: seq<Entry>) returns (next: DataSaver)
    requires Stocks(saver, es)
    modifies saver.fs
    ensures next.fs == saver.fs && fresh(next) && Idle(next, Survivors(es, loss))
  {
    if loss.InWrite? {
      CutKeeps(saver.fs.Disk(), es, loss.cut.reading, loss.cut.stateLands, loss.cut.dataLands);
      saver.WriteFiles(loss.cut.reading, loss.cut.stateLands, loss.cut.dataLands);
    }
    next := StoreRuns.PowerCycle(saver);
  }

  /** The Dafny classes through a whole life: the characters on the wire are the frames
      of the books, and the files hold the places of the books. */
  method LiveFrom(saver: DataSaver, ghost l: Life, boots: seq<Boot>)
    returns (wire: string, left: Image, ghost packets: seq<Packet>)
    requires Idle(saver, l.queue)
    modifies saver, saver.fs
    ensures wire == WireText(packets) && Carries(packets, SentIn(l, boots))
    ensures Faithful(left.readings, State(left), Live(l, boots).queue)
    decreases |boots|
  {
    if boots == [] {
      return "", saver.fs.Disk(), [];
    }
    ghost var t, l' := LastBooks(l.queue, boots[0]), AfterBoot(l, boots[0]);
    var first, p1 := RunBoot(saver, boots[0], l.queue);
    var next := LosePower(saver, boots[0].loss, t.saver.queue);
    var later;
    ghost var p2;
    later, left, p2 := LiveFrom(next, l', boots[1..]);
    wire, packets := first + later, p1 + p2;
    WireTextConcat(p1, p2);
    CarriesConcat(p1, t.sent, p2, SentIn(l', boots[1..]));
  }

  /** From an empty flash, any number of boots and power losses. */
  method LiveAll(boots: seq<Boot>) returns (wire: string, left: Image, ghost packets: seq<Packet>)
    ensures LifeOk(Live(NEWBORN, boots)) && Damage(Live(NEWBORN, boots)) <= Tears(NEWBORN, boots)
    ensures wire == WireText(packets) && Carries(packets, Live(NEWBORN, boots).sent)
    ensures Faithful(left.readings, State(left), Live(NEWBORN, boots).queue)
  {
    var saver := Factory();
    wire, left, packets := LiveFrom(saver, NEWBORN, boots);
    NewbornOk();
    LifeKeeps(NEWBORN, boots);
    LiveSends(NEWBORN, boots);
    assert [] + SentIn(NEWBORN, boots) == SentIn(NEWBORN, boots);
  }
}
