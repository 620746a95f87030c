/** Power cuts: what an interrupted `Write` does to the places of the queue. */
module PowerCuts {
  import opened Protocol
  import opened Flash

  /** A place in the queue: what was meant to be stored there, and whether no cut
      has spoiled it. */
  datatype Entry = Entry(reading: SensorData, genuine: bool)

  /** A place holds the reading meant for it, inside the file. */
  predicate Kept(readings: File, slot: nat, e: Entry) {
    e.genuine ==> Fits(readings, slot) && Slot(readings, slot) == e.reading
  }

  /** There is a place for every live slot, and only spoiled places may differ from
      what is stored. */
  ghost predicate Faithful(readings: File, st: BufferState, es: seq<Entry>) {
    RingOk(st) && |es| == st.count && forall k | 0 <= k < |es| :: Kept(readings, SlotOf(st, k), es[k])
  }

  /** The places after a `Write` that power cut short. If both files landed it is a
      save, if none did it is nothing; the state alone adds a spoiled place, the
      data alone spoils the oldest place of a full ring. */
  function AfterCut(es: seq<Entry>, x: SensorData, stateLands: bool, dataLands: bool): (r: seq<Entry>)
    ensures |es| <= CIRCULAR_BUFFER_SIZE ==> |r| <= CIRCULAR_BUFFER_SIZE
  {
    if stateLands then Push(es, Entry(x, dataLands))
    else if dataLands && |es| >= CIRCULAR_BUFFER_SIZE then [Entry(x, false)] + es[1..]
    else es
  }

  function Spoiled(es: seq<Entry>): nat {
    if es == [] then 0 else (if es[0].genuine then 0 else 1) + Spoiled(es[1..])
  }

  lemma {:induction false} SpoiledAppend(a: seq<Entry>, b: seq<Entry>)
    ensures Spoiled(a + b) == Spoiled(a) + Spoiled(b)
  {
    if a == [] {
      assert a + b == b;
    } else {
      assert (a + b)[1..] == a[1..] + b;
      SpoiledAppend(a[1..], b);
    }
  }

  lemma SpoiledOne(e: Entry)
    ensures Spoiled([e]) == if e.genuine then 0 else 1
  {
    assert [e][1..] == [];
  }

  lemma SpoiledPush(es: seq<Entry>, e: Entry)
    ensures Spoiled(Push(es, e)) <= Spoiled(es) + if e.genuine then 0 else 1
  {
    SpoiledAppend(if |es| < CIRCULAR_BUFFER_SIZE then es else es[1..], [e]);
    SpoiledOne(e);
  }

  /** A cut spoils a place when the state landed alone, or the data alone over the
      oldest place of a full ring. */
  predicate Spoils(es: seq<Entry>, stateLands: bool, dataLands: bool) {
    stateLands != dataLands && (stateLands || |es| >= CIRCULAR_BUFFER_SIZE)
  }

  /** Such a cut spoils one place at most, any other none. */
  lemma CutSpoilsOne(es: seq<Entry>, x: SensorData, stateLands: bool, dataLands: bool)
    ensures Spoiled(AfterCut(es, x, stateLands, dataLands)) <=
            Spoiled(es) + if Spoils(es, stateLands, dataLands) then 1 else 0
  {
    if stateLands {
      SpoiledPush(es, Entry(x, dataLands));
    } else if dataLands && |es| >= CIRCULAR_BUFFER_SIZE {
      assert ([Entry(x, false)] + es[1..])[1..] == es[1..];
    }
  }

  /** Writing a slot that is not live keeps every place; in a full ring it replaces
      the oldest. */
  lemma DataKeeps(readings: File, st: BufferState, es: seq<Entry>, x: SensorData, genuine: bool)
    requires Faithful(readings, st, es)
    ensures var readings' := WriteAt(readings, READING_BYTES * st.head, EncodeReading(x));
            && Kept(readings', st.head, Entry(x, true))
            && Faithful(readings', st, if st.count == CIRCULAR_BUFFER_SIZE then [Entry(x, genuine)] + es[1..] else es)
  {
    var readings' := WriteAt(readings, READING_BYTES * st.head, EncodeReading(x));
    var es' := if st.count == CIRCULAR_BUFFER_SIZE then [Entry(x, genuine)] + es[1..] else es;
    SlotOfWithData(readings, st.head, x, st.head);
    forall k | 0 <= k < |es'| ensures Kept(readings', SlotOf(st, k), es'[k]) {
      HeadIsLive(st, k);
      OtherKept(readings, st.head, x, SlotOf(st, k), es[k]);
    }
  }

  /** The slot at the head is live only in a full ring, as the oldest. */
  lemma HeadIsLive(st: BufferState, k: nat)
    requires RingOk(st) && k < st.count
    ensures SlotOf(st, k) == st.head <==> st.count == CIRCULAR_BUFFER_SIZE && k == 0
  {
  }

  lemma OtherKept(readings: File, i: nat, x: SensorData, j: nat, e: Entry)
    requires Kept(readings, j, e)
    ensures j != i ==> Kept(WriteAt(readings, READING_BYTES * i, EncodeReading(x)), j, e)
  {
    SlotOfWithData(readings, i, x, j);
  }

  /** Advancing the state makes the old head slot the newest place. */
  lemma AdvanceKeeps(readings: File, st: BufferState, es: seq<Entry>, e: Entry)
    requires Faithful(readings, st, es) && Kept(readings, st.head, e)
    ensures Faithful(readings, Advance(st), Push(es, e))
  {
    SlotsAdvance(st);
  }

  lemma PopKeeps(readings: File, st: BufferState, es: seq<Entry>)
    requires Faithful(readings, st, es) && st.count > 0
    ensures Faithful(readings, Pop(st), es[1..])
  {
    forall k | 0 <= k < st.count - 1 ensures SlotOf(Pop(st), k) == SlotOf(st, k + 1) {
    }
  }

  /** A `Write`, cut short or not, leaves the places `AfterCut` says. */
  lemma CutKeeps(img: Image, es: seq<Entry>, x: SensorData, stateLands: bool, dataLands: bool)
    requires Faithful(img.readings, State(img), es)
    ensures var img' := Interrupted(img, x, stateLands, dataLands);
            Faithful(img'.readings, State(img'), AfterCut(es, x, stateLands, dataLands))
  {
    var st := State(img);
    var data := if dataLands then WithData(img, x) else img;
    var full := st.count == CIRCULAR_BUFFER_SIZE;
    var es' := if dataLands && full then [Entry(x, false)] + es[1..] else es;
    if dataLands {
      DataKeeps(img.readings, st, es, x, false);
    }
    if stateLands {
      AdvanceKeeps(data.readings, st, es', Entry(x, dataLands));
      StateOfWithState(data, Advance(st));
      assert full ==> es'[1..] == es[1..];
    }
  }

  /** What a read hands out is the reading meant for the place, unless the place is
      spoiled. */
  lemma OldestKept(readings: File, st: BufferState, es: seq<Entry>)
    requires Faithful(readings, st, es) && st.count > 0
    ensures Kept(readings, st.tail, es[0])
  {
    assert SlotOf(st, 0) == st.tail;
  }

  // ---------------------------------------------------------------- what was meant

  /** The readings as they were meant. */
  function Meant(es: seq<Entry>): (rs: seq<SensorData>)
    ensures |rs| == |es|
    ensures forall i | 0 <= i < |es| :: rs[i] == es[i].reading
  {
    seq(|es|, i requires 0 <= i < |es| => es[i].reading)
  }

  predicate AllGenuine(es: seq<Entry>) {
    forall i | 0 <= i < |es| :: es[i].genuine
  }

  lemma {:induction false} NoneSpoiled(es: seq<Entry>)
    requires Spoiled(es) == 0
    ensures AllGenuine(es)
  {
    if es != [] {
      NoneSpoiled(es[1..]);
      assert forall i | 0 < i < |es| :: es[i] == es[1..][i - 1];
    }
  }

  lemma FaithfulMeant(readings: File, st: BufferState, es: seq<Entry>)
    requires Faithful(readings, st, es) && AllGenuine(es)
    ensures Entries(readings, st) == Meant(es)
  {
    forall k | 0 <= k < |es| ensures Entries(readings, st)[k] == es[k].reading {
      assert Kept(readings, SlotOf(st, k), es[k]);
    }
  }

  /** `b` is `a`, but for places spoiled meanwhile. */
  ghost predicate Agree(a: seq<Entry>, b: seq<Entry>) {
    |a| == |b| && forall i | 0 <= i < |b| :: b[i].genuine ==> b[i] == a[i]
  }

  lemma AgreeChain(q: seq<Entry>, a: seq<Entry>, left: seq<Entry>, q': seq<Entry>, b: seq<Entry>, rest: seq<Entry>,
                   q'': seq<Entry>)
    requires Agree(q + a, left + q') && Agree(q' + b, rest + q'')
    ensures Agree(q + (a + b), (left + rest) + q'')
  {
    assert q + (a + b) == (q + a) + b && (left + rest) + q'' == left + (rest + q'');
    AgreeAppend(q + a, left + q', b);
    assert (left + q') + b == left + (q' + b);
    AgreePrepend(left, q' + b, rest + q'');
  }

  lemma AgreeAppend(a: seq<Entry>, a': seq<Entry>, b: seq<Entry>)
    requires Agree(a, a')
    ensures Agree(a + b, a' + b)
  {
  }

  lemma AgreePrepend(left: seq<Entry>, b: seq<Entry>, b': seq<Entry>)
    requires Agree(b, b')
    ensures Agree(left + b, left + b')
  {
  }
}
