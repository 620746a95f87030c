/** The two files of the store-and-forward ring, as byte images, and what one
    `DataSaver::Write` does to each of them. */
module Flash {
  import opened Words
  import opened Protocol

  const CIRCULAR_BUFFER_SIZE: nat := 57600
  const MAX_READINGS_PER_BATCH: nat := 50
  const READING_BYTES: nat := 16
  const STATE_BYTES: nat := 12

  type File = seq<Byte>

  // ---------------------------------------------------------------- bytes

  /** Bytes past the end of a file count as zero: a write there fills the gap
      with zeros. */
  function ByteAt(file: File, p: nat): Byte {
    if p < |file| then file[p] else 0
  }

  function Bytes(file: File, pos: nat, n: nat): (bs: seq<Byte>)
    ensures |bs| == n
    ensures forall k | 0 <= k < n :: bs[k] == ByteAt(file, pos + k)
  {
    seq<Byte>(n, k requires 0 <= k < n => ByteAt(file, pos + k))
  }

  /** `seek(pos)` and `readBytes(n)`: short at the end of the file. */
  function ReadAt(file: File, pos: nat, n: nat): (bs: seq<Byte>)
    ensures |bs| <= n
  {
    if pos >= |file| then [] else file[pos..Min(pos + n, |file|)]
  }

  /** The variable a read lands in keeps the bytes that were not delivered. */
  function Overlay(got: seq<Byte>, old_: seq<Byte>): (bs: seq<Byte>)
    requires |got| <= |old_|
    ensures |bs| == |old_|
  {
    got + old_[|got|..]
  }

  function Zeros(n: nat): (bs: seq<Byte>)
    ensures |bs| == n
    ensures forall k | 0 <= k < n :: bs[k] == 0
  {
    seq<Byte>(n, _ => 0)
  }

  /** `seek(pos)` and `write(bs)`. */
  function WriteAt(file: File, pos: nat, bs: seq<Byte>): File {
    if pos > |file| then file + Zeros(pos - |file|) + bs
    else file[..pos] + bs + (if pos + |bs| <= |file| then file[pos + |bs|..] else [])
  }

  lemma WriteAtBytes(file: File, pos: nat, bs: seq<Byte>, p: nat)
    requires bs != []
    ensures ByteAt(WriteAt(file, pos, bs), p) == if pos <= p < pos + |bs| then bs[p - pos] else ByteAt(file, p)
    ensures |WriteAt(file, pos, bs)| == Max(|file|, pos + |bs|)
  {
  }

  lemma ReadAtBytes(file: File, pos: nat, n: nat)
    ensures Overlay(ReadAt(file, pos, n), Zeros(n)) == Bytes(file, pos, n)
    ensures pos + n <= |file| ==> ReadAt(file, pos, n) == Bytes(file, pos, n)
  {
  }

  // ---------------------------------------------------------------- records

  function EncodeReading(r: SensorData): (bs: seq<Byte>)
    ensures |bs| == READING_BYTES
  {
    ToBytes(r.timestamp) + ToBytes(r.temperature) + ToBytes(r.humidity) + ToBytes(r.co2)
  }

  function DecodeReading(bs: seq<Byte>): SensorData
    requires |bs| == READING_BYTES
  {
    SensorData(FromBytes(bs[..4]), FromBytes(bs[4..8]), FromBytes(bs[8..12]), FromBytes(bs[12..]))
  }

  /** A reading is its four words, one after another, and comes back from them. */
  lemma ReadingRoundTrip(r: SensorData)
    ensures DecodeReading(EncodeReading(r)) == r
    ensures var bs := EncodeReading(r);
            && bs[..4] == ToBytes(r.timestamp) && bs[4..8] == ToBytes(r.temperature)
            && bs[8..12] == ToBytes(r.humidity) && bs[12..] == ToBytes(r.co2)
  {
    var bs := EncodeReading(r);
    assert bs[..4] == ToBytes(r.timestamp) && bs[4..8] == ToBytes(r.temperature);
    assert bs[8..12] == ToBytes(r.humidity) && bs[12..] == ToBytes(r.co2);
    WordRoundTrip(r.timestamp);
    WordRoundTrip(r.temperature);
    WordRoundTrip(r.humidity);
    WordRoundTrip(r.co2);
  }

  lemma ReadingBytes(bs: seq<Byte>)
    requires |bs| == READING_BYTES
    ensures EncodeReading(DecodeReading(bs)) == bs
  {
    BytesRoundTrip(bs[..4]);
    BytesRoundTrip(bs[4..8]);
    BytesRoundTrip(bs[8..12]);
    BytesRoundTrip(bs[12..]);
    assert bs == bs[..4] + bs[4..8] + bs[8..12] + bs[12..];
  }

  datatype BufferState = BufferState(head: Word, tail: Word, count: Word)

  function EncodeState(st: BufferState): (bs: seq<Byte>)
    ensures |bs| == STATE_BYTES
  {
    ToBytes(st.head) + ToBytes(st.tail) + ToBytes(st.count)
  }

  function DecodeState(bs: seq<Byte>): BufferState
    requires |bs| == STATE_BYTES
  {
    BufferState(FromBytes(bs[..4]), FromBytes(bs[4..8]), FromBytes(bs[8..]))
  }

  /** The state record is its three words, in this order. */
  lemma StateRoundTrip(st: BufferState)
    ensures DecodeState(EncodeState(st)) == st
    ensures var bs := EncodeState(st);
            bs[..4] == ToBytes(st.head) && bs[4..8] == ToBytes(st.tail) && bs[8..] == ToBytes(st.count)
  {
    var bs := EncodeState(st);
    assert bs[..4] == ToBytes(st.head) && bs[4..8] == ToBytes(st.tail) && bs[8..] == ToBytes(st.count);
    WordRoundTrip(st.head);
    WordRoundTrip(st.tail);
    WordRoundTrip(st.count);
  }

  // ---------------------------------------------------------------- the ring

  /** Contents of `buffer.dat` and `readings.dat`; a missing file reads as
      empty. */
  datatype Image = Image(buffer: File, readings: File)

  function State(img: Image): BufferState {
    DecodeState(Bytes(img.buffer, 0, STATE_BYTES))
  }

  function Slot(readings: File, i: nat): SensorData {
    DecodeReading(Bytes(readings, READING_BYTES * i, READING_BYTES))
  }

  /** One turn of the ring; equal to `i % CIRCULAR_BUFFER_SIZE` for `i` below two
      turns (`WrapIsMod`). */
  function Wrap(i: nat): nat
    requires i < 2 * CIRCULAR_BUFFER_SIZE
  {
    if i < CIRCULAR_BUFFER_SIZE then i else i - CIRCULAR_BUFFER_SIZE
  }

  lemma WrapIsMod(i: nat)
    requires i < 2 * CIRCULAR_BUFFER_SIZE
    ensures Wrap(i) == i % CIRCULAR_BUFFER_SIZE
  {
  }

  predicate RingOk(st: BufferState) {
    && st.head < CIRCULAR_BUFFER_SIZE && st.tail < CIRCULAR_BUFFER_SIZE
    && st.count <= CIRCULAR_BUFFER_SIZE
    && st.head == Wrap(st.tail + st.count)
  }

  /** The ring invariant in the code's own terms. */
  lemma RingOkIsMod(st: BufferState)
    ensures RingOk(st) <==>
              && st.head < 57600 && st.tail < 57600 && st.count <= 57600
              && st.head == (st.tail + st.count) % 57600
  {
    if st.tail < CIRCULAR_BUFFER_SIZE && st.count <= CIRCULAR_BUFFER_SIZE {
      WrapIsMod(st.tail + st.count);
    }
  }

  /** The slot that holds the `k`-th oldest stored reading. */
  function SlotOf(st: BufferState, k: nat): nat
    requires RingOk(st) && k < st.count
  {
    Wrap(st.tail + k)
  }

  /** The readings a state record makes of the slots, oldest first. */
  function Entries(readings: File, st: BufferState): (q: seq<SensorData>)
    requires RingOk(st)
    ensures |q| == st.count
    ensures forall k | 0 <= k < |q| :: q[k] == Slot(readings, SlotOf(st, k))
  {
    seq(st.count, k requires 0 <= k < st.count => Slot(readings, SlotOf(st, k)))
  }

  function Queue(img: Image): (q: seq<SensorData>)
    requires RingOk(State(img))
    ensures |q| == State(img).count
  {
    Entries(img.readings, State(img))
  }

  predicate Fits(readings: File, i: nat) {
    READING_BYTES * i + READING_BYTES <= |readings|
  }

  /** Every live slot lies wholly inside the readings file. */
  predicate AllFit(readings: File, st: BufferState)
    requires RingOk(st)
  {
    forall k | 0 <= k < st.count :: Fits(readings, SlotOf(st, k))
  }

  predicate Sound(img: Image) {
    RingOk(State(img)) && AllFit(img.readings, State(img))
  }

  /** A bounded FIFO that drops its oldest entry when full: what the two files
      stand for. */
  function Push<T>(q: seq<T>, x: T): (r: seq<T>)
    ensures |q| <= CIRCULAR_BUFFER_SIZE ==> |r| <= CIRCULAR_BUFFER_SIZE
  {
    (if |q| < CIRCULAR_BUFFER_SIZE then q else q[1..]) + [x]
  }

  // ---------------------------------------------------------------- updates

  function Advance(st: BufferState): BufferState
    requires RingOk(st)
  {
    BufferState(Wrap(st.head + 1),
                if st.count < CIRCULAR_BUFFER_SIZE then st.tail else Wrap(st.tail + 1),
                if st.count < CIRCULAR_BUFFER_SIZE then st.count + 1 else st.count)
  }

  function Pop(st: BufferState): BufferState
    requires RingOk(st) && st.count > 0
  {
    BufferState(st.head, Wrap(st.tail + 1), st.count - 1)
  }

  function WithState(img: Image, st: BufferState): Image {
    img.(buffer := WriteAt(img.buffer, 0, EncodeState(st)))
  }

  function WithData(img: Image, x: SensorData): Image {
    img.(readings := WriteAt(img.readings, READING_BYTES * State(img).head, EncodeReading(x)))
  }

  function Written(img: Image, x: SensorData): Image
    requires RingOk(State(img))
  {
    WithState(WithData(img, x), Advance(State(img)))
  }

  function Popped(img: Image): Image
    requires RingOk(State(img)) && State(img).count > 0
  {
    WithState(img, Pop(State(img)))
  }

  lemma StateOfWithState(img: Image, st: BufferState)
    ensures State(WithState(img, st)) == st
    ensures WithState(img, st).readings == img.readings
  {
    var bs := Bytes(WithState(img, st).buffer, 0, STATE_BYTES);
    forall p | 0 <= p < STATE_BYTES ensures bs[p] == EncodeState(st)[p] {
      WriteAtBytes(img.buffer, 0, EncodeState(st), p);
    }
    assert bs == EncodeState(st);
    StateRoundTrip(st);
  }

  /** Writing one slot changes that slot and no other. */
  lemma SlotOfWithData(file: File, i: nat, x: SensorData, j: nat)
    ensures Slot(WriteAt(file, READING_BYTES * i, EncodeReading(x)), j) == if j == i then x else Slot(file, j)
    ensures |WriteAt(file, READING_BYTES * i, EncodeReading(x))| == Max(|file|, READING_BYTES * i + READING_BYTES)
  {
    var bs, pos := EncodeReading(x), READING_BYTES * i;
    var after := Bytes(WriteAt(file, pos, bs), READING_BYTES * j, READING_BYTES);
    forall p | 0 <= p < READING_BYTES
      ensures after[p] == if j == i then bs[p] else ByteAt(file, READING_BYTES * j + p)
    {
      WriteAtBytes(file, pos, bs, READING_BYTES * j + p);
    }
    WriteAtBytes(file, pos, bs, 0);
    if j == i {
      assert after == bs;
      ReadingRoundTrip(x);
    } else {
      assert after == Bytes(file, READING_BYTES * j, READING_BYTES);
    }
  }

  /** The slot about to be written is live only when the ring is full, and then
      it is the oldest. */
  lemma EntriesWithData(readings: File, st: BufferState, x: SensorData)
    requires RingOk(st)
    ensures var readings' := WriteAt(readings, READING_BYTES * st.head, EncodeReading(x));
            && Slot(readings', st.head) == x && Fits(readings', st.head)
            && (AllFit(readings, st) ==> AllFit(readings', st))
            && Entries(readings', st) ==
               if st.count == CIRCULAR_BUFFER_SIZE then [x] + Entries(readings, st)[1..] else Entries(readings, st)
  {
    var readings' := WriteAt(readings, READING_BYTES * st.head, EncodeReading(x));
    SlotOfWithData(readings, st.head, x, st.head);
    forall k | 0 <= k < st.count
      ensures Slot(readings', SlotOf(st, k)) == if SlotOf(st, k) == st.head then x else Slot(readings, SlotOf(st, k))
    {
      SlotOfWithData(readings, st.head, x, SlotOf(st, k));
    }
    OverwrittenEntries(readings, readings', st, x);
  }

  lemma OverwrittenEntries(readings: File, readings': File, st: BufferState, x: SensorData)
    requires RingOk(st) && |readings| <= |readings'|
    requires forall k | 0 <= k < st.count ::
               Slot(readings', SlotOf(st, k)) == if SlotOf(st, k) == st.head then x else Slot(readings, SlotOf(st, k))
    ensures AllFit(readings, st) ==> AllFit(readings', st)
    ensures Entries(readings', st) ==
            if st.count == CIRCULAR_BUFFER_SIZE then [x] + Entries(readings, st)[1..] else Entries(readings, st)
  {
    forall k | 0 <= k < st.count
      ensures Fits(readings, SlotOf(st, k)) ==> Fits(readings', SlotOf(st, k))
    {
    }
    FirstReplaced(Entries(readings, st), Entries(readings', st), x, st.count == CIRCULAR_BUFFER_SIZE);
  }

  lemma FirstReplaced<T>(q: seq<T>, q': seq<T>, x: T, replaced: bool)
    requires |q| == |q'| && (replaced ==> q != [])
    requires forall k | 0 <= k < |q| :: q'[k] == if replaced && k == 0 then x else q[k]
    ensures q' == if replaced then [x] + q[1..] else q
  {
  }

  /** Advancing the state keeps the live slots in order and adds the old head. */
  lemma SlotsAdvance(st: BufferState)
    requires RingOk(st)
    ensures RingOk(Advance(st))
    ensures var skip, last := if st.count == CIRCULAR_BUFFER_SIZE then 1 else 0, Advance(st).count - 1;
            && SlotOf(Advance(st), last) == st.head
            && (forall k | 0 <= k < last :: SlotOf(Advance(st), k) == SlotOf(st, k + skip))
  {
  }

  /** Advancing the state makes the slot at the old head the newest entry. */
  lemma EntriesAdvance(readings: File, st: BufferState)
    requires RingOk(st)
    ensures RingOk(Advance(st))
    ensures var q, full := Entries(readings, st), st.count == CIRCULAR_BUFFER_SIZE;
            Entries(readings, Advance(st)) == (if full then q[1..] else q) + [Slot(readings, st.head)]
    ensures AllFit(readings, st) ==> (AllFit(readings, Advance(st)) <==> Fits(readings, st.head))
  {
    SlotsAdvance(st);
    if AllFit(readings, st) {
      AllFitAdvance(readings, st);
    }
    ShiftedEntries(readings, st, Advance(st), if st.count == CIRCULAR_BUFFER_SIZE then 1 else 0);
    var q := Entries(readings, st);
    assert q[0..] == q;
  }

  lemma ShiftedEntries(readings: File, st: BufferState, after: BufferState, skip: nat)
    requires RingOk(st) && RingOk(after) && after.count > 0 && skip + after.count == st.count + 1
    requires SlotOf(after, after.count - 1) == st.head
    requires forall k | 0 <= k < after.count - 1 :: SlotOf(after, k) == SlotOf(st, k + skip)
    ensures Entries(readings, after) == Entries(readings, st)[skip..] + [Slot(readings, st.head)]
  {
    var q, q' := Entries(readings, st), Entries(readings, after);
    forall k | 0 <= k < after.count - 1 ensures q'[k] == q[skip..][k] {
    }
    assert q' == q[skip..] + [Slot(readings, st.head)];
  }

  lemma AllFitAdvance(readings: File, st: BufferState)
    requires RingOk(st) && RingOk(Advance(st)) && AllFit(readings, st)
    ensures AllFit(readings, Advance(st)) <==> Fits(readings, st.head)
  {
    SlotsAdvance(st);
  }

  /** A completed `Write` is a push on the bounded FIFO. */
  lemma WrittenIsPush(img: Image, x: SensorData)
    requires RingOk(State(img))
    ensures RingOk(State(Written(img, x)))
    ensures Queue(Written(img, x)) == Push(Queue(img), x)
    ensures Sound(img) ==> Sound(Written(img, x))
  {
    var st, data := State(img), WithData(img, x);
    StateOfWithState(data, Advance(st));
    EntriesWithData(img.readings, st, x);
    EntriesAdvance(data.readings, st);
  }

  /** A completed `Read` pops the oldest reading. */
  lemma PoppedIsPop(img: Image)
    requires RingOk(State(img)) && State(img).count > 0
    ensures RingOk(State(Popped(img)))
    ensures Queue(Popped(img)) == Queue(img)[1..]
    ensures Sound(img) ==> Sound(Popped(img))
  {
    StateOfWithState(img, Pop(State(img)));
    EntriesPop(img.readings, State(img));
  }

  lemma EntriesPop(readings: File, st: BufferState)
    requires RingOk(st) && st.count > 0
    ensures RingOk(Pop(st))
    ensures Entries(readings, Pop(st)) == Entries(readings, st)[1..]
    ensures AllFit(readings, st) ==> AllFit(readings, Pop(st))
  {
    forall k | 0 <= k < st.count - 1 ensures SlotOf(Pop(st), k) == SlotOf(st, k + 1) {
    }
    assert Entries(readings, Pop(st)) == Entries(readings, st)[1..];
  }

  // ---------------------------------------------------------------- power cuts

  /** What a `Write` leaves behind when power fails: each file holds its old or
      its new contents. */
  function Interrupted(img: Image, x: SensorData, stateLanded: bool, dataLanded: bool): Image
    requires RingOk(State(img))
  {
    var data := if dataLanded then WithData(img, x) else img;
    if stateLanded then WithState(data, Advance(State(img))) else data
  }

  /** An interrupted `Write` damages at most the slot at the old `Head`, and what
      it does to the queue is one of five things. */
  lemma InterruptedWrite(img: Image, x: SensorData, stateLanded: bool, dataLanded: bool)
    requires RingOk(State(img))
    ensures var st, img' := State(img), Interrupted(img, x, stateLanded, dataLanded);
            var q, full := Queue(img), st.count == CIRCULAR_BUFFER_SIZE;
            && RingOk(State(img'))
            && (forall j: nat | j != st.head :: Slot(img'.readings, j) == Slot(img.readings, j))
            && Queue(img') ==
               (if stateLanded && dataLanded then Push(q, x)
                else if stateLanded && full then q[1..] + [q[0]]
                else if stateLanded then q + [Slot(img.readings, st.head)]
                else if dataLanded && full then [x] + q[1..]
                else q)
  {
    var st := State(img);
    forall j: nat | j != st.head
      ensures Slot(Interrupted(img, x, stateLanded, dataLanded).readings, j) == Slot(img.readings, j)
    {
      SlotOfWithData(img.readings, st.head, x, j);
    }
    InterruptedQueue(img, x, stateLanded, dataLanded);
  }

  lemma InterruptedQueue(img: Image, x: SensorData, stateLanded: bool, dataLanded: bool)
    requires RingOk(State(img))
    ensures var st, img' := State(img), Interrupted(img, x, stateLanded, dataLanded);
            var q, full := Queue(img), st.count == CIRCULAR_BUFFER_SIZE;
            && RingOk(State(img'))
            && Queue(img') ==
               (if stateLanded && dataLanded then Push(q, x)
                else if stateLanded && full then q[1..] + [q[0]]
                else if stateLanded then q + [Slot(img.readings, st.head)]
                else if dataLanded && full then [x] + q[1..]
                else q)
  {
    var st := State(img);
    if stateLanded && dataLanded {
      WrittenIsPush(img, x);
    } else if stateLanded {
      StateOfWithState(img, Advance(st));
      EntriesAdvance(img.readings, st);
    } else if dataLanded {
      EntriesWithData(img.readings, st, x);
    }
  }

  /** After a power cut every live slot is still inside the readings file, unless
      the state landed alone and counts a slot the file does not hold yet. */
  lemma InterruptedSound(img: Image, x: SensorData, stateLanded: bool, dataLanded: bool)
    requires Sound(img)
    ensures Sound(Interrupted(img, x, stateLanded, dataLanded)) <==>
            !stateLanded || dataLanded || Fits(img.readings, State(img).head)
  {
    var st := State(img);
    if stateLanded && dataLanded {
      WrittenIsPush(img, x);
    } else if stateLanded {
      StateOfWithState(img, Advance(st));
      EntriesAdvance(img.readings, st);
    } else if dataLanded {
      EntriesWithData(img.readings, st, x);
    }
  }
}
