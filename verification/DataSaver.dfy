/** `DataSaver`: the persistent ring behind its two files, read in batches
    through handles that stay open between calls. */
module DataSaver {
  import opened Words
  import opened Protocol
  import opened Flash

  /** What `LittleFS.begin(true)` does to a file system that is not mounted yet. */
  datatype Mount = Mounts | Formats | Fails

  /** The file system: one copy of each file, seen by every open handle. */
  class LittleFs {
    var mounted: bool
    var buffer: Option<File>
    var readings: Option<File>

    constructor (buffer: Option<File>, readings: Option<File>)
      ensures !mounted && this.buffer == buffer && this.readings == readings
    {
      mounted, this.buffer, this.readings := false, buffer, readings;
    }

    function Content(file: Option<File>): File {
      if file.Some? then file.value else []
    }

    function Disk(): Image
      reads this
    {
      Image(Content(buffer), Content(readings))
    }

    predicate Ready()
      reads this
    {
      mounted && buffer.Some? && readings.Some?
    }

    method Begin(outcome: Mount) returns (ok: bool)
      modifies this
      ensures ok == mounted
      ensures mounted <==> old(mounted) || outcome != Fails
      ensures if old(mounted) || outcome != Formats then buffer == old(buffer) && readings == old(readings)
              else buffer == None && readings == None
    {
      if !mounted {
        match outcome {
          case Mounts => mounted := true;
          case Formats => mounted, buffer, readings := true, None, None;
          case Fails =>
        }
      }
      ok := mounted;
    }

    /** Seek to the start and read the state record. */
    method LoadState() returns (st: BufferState)
      requires buffer.Some?
      ensures st == State(Disk())
    {
      st := DecodeState(Overlay(ReadAt(buffer.value, 0, STATE_BYTES), Zeros(STATE_BYTES)));
      ReadAtBytes(buffer.value, 0, STATE_BYTES);
    }

    method StoreState(st: BufferState)
      requires buffer.Some?
      modifies this`buffer
      ensures buffer == Some(WriteAt(old(buffer).value, 0, EncodeState(st)))
      ensures Disk() == WithState(old(Disk()), st)
    {
      buffer := Some(WriteAt(buffer.value, 0, EncodeState(st)));
    }

    /** Seek to a slot and read it over `previous`; the offset is a 32-bit
        product. */
    method LoadReading(slot: Word, previous: SensorData) returns (data: SensorData)
      requires readings.Some? && slot < CIRCULAR_BUFFER_SIZE
      ensures data == Fetched(readings.value, slot, previous)
    {
      var position: Word := slot * READING_BYTES;
      var got := ReadAt(readings.value, position, READING_BYTES);
      data := DecodeReading(Overlay(got, EncodeReading(previous)));
    }

    method StoreReading(slot: Word, data: SensorData)
      requires readings.Some? && slot < CIRCULAR_BUFFER_SIZE
      modifies this`readings
      ensures readings == Some(WriteAt(old(readings).value, READING_BYTES * slot, EncodeReading(data)))
    {
      var position: Word := slot * READING_BYTES;
      readings := Some(WriteAt(readings.value, position, EncodeReading(data)));
    }
  }

  lemma ZeroState()
    ensures WriteAt([], 0, EncodeState(BufferState(0, 0, 0))) == Zeros(STATE_BYTES)
  {
    var bs := EncodeState(BufferState(0, 0, 0));
    assert forall p | 0 <= p < STATE_BYTES :: bs[p] == 0;
  }

  lemma EmptyState(readings: File)
    ensures State(Image([], readings)) == BufferState(0, 0, 0)
  {
    assert Bytes([], 0, STATE_BYTES) == Zeros(STATE_BYTES);
  }

  /** What reading a slot leaves in a variable that held `previous`. */
  function Fetched(readings: File, slot: nat, previous: SensorData): SensorData {
    DecodeReading(Overlay(ReadAt(readings, slot * READING_BYTES, READING_BYTES), EncodeReading(previous)))
  }

  /** Byte by byte: what the file holds lands over the variable, the rest of it stays. */
  lemma FetchedBytes(readings: File, slot: nat, previous: SensorData, p: nat)
    requires p < READING_BYTES
    ensures EncodeReading(Fetched(readings, slot, previous))[p] ==
            if slot * 16 + p < |readings| then readings[slot * 16 + p] else EncodeReading(previous)[p]
  {
    ReadingBytes(Overlay(ReadAt(readings, slot * READING_BYTES, READING_BYTES), EncodeReading(previous)));
  }

  /** A slot inside the file is read whole; from a slot outside the file nothing is
      read, and the variable keeps its previous reading. */
  lemma FetchedIs(readings: File, slot: nat, previous: SensorData)
    ensures Fits(readings, slot) ==> Fetched(readings, slot, previous) == Slot(readings, slot)
    ensures slot * READING_BYTES >= |readings| ==> Fetched(readings, slot, previous) == previous
  {
    var got := ReadAt(readings, slot * READING_BYTES, READING_BYTES);
    ReadAtBytes(readings, slot * READING_BYTES, READING_BYTES);
    ReadingRoundTrip(previous);
    if Fits(readings, slot) {
      assert Overlay(got, EncodeReading(previous)) == got;
    } else if slot * READING_BYTES >= |readings| {
      assert Overlay(got, EncodeReading(previous)) == EncodeReading(previous);
    }
  }

  /** The two images hold the same ring. */
  predicate SameRing(a: Image, b: Image) {
    State(a) == State(b) && a.readings == b.readings
  }

  /** The saver as its caller sees it: the stored readings, whether the batch
      handles are open, and the batch counter. */
  datatype View<T> = View(queue: seq<T>, open: bool, batch: nat)

  predicate ViewOk<T>(v: View<T>) {
    |v.queue| <= CIRCULAR_BUFFER_SIZE && v.batch <= MAX_READINGS_PER_BATCH + 1
  }

  function AfterWrite<T>(v: View<T>, x: T, opens: bool): View<T> {
    if opens then v.(queue := Push(v.queue, x)) else v
  }

  predicate ReadSucceeds<T>(v: View<T>, opens: bool) {
    v.batch <= MAX_READINGS_PER_BATCH && (v.open || opens) && |v.queue| > 0
  }

  function AfterRead<T>(v: View<T>, opens: bool): View<T> {
    if v.batch > MAX_READINGS_PER_BATCH then View(v.queue, false, 0)
    else if ReadSucceeds(v, opens) then View(v.queue[1..], true, v.batch + 1)
    else v.(open := false)
  }

  /** True of every run that no power cut has interrupted since the files were
      created: the readings file is exactly as long as its slots are used. */
  predicate Contiguous(img: Image, written: seq<SensorData>) {
    && State(img).head == |written| % CIRCULAR_BUFFER_SIZE
    && State(img).count <= Min(|written|, CIRCULAR_BUFFER_SIZE)
    && |img.readings| == READING_BYTES * Min(|written|, CIRCULAR_BUFFER_SIZE)
  }

  /** A write never seeks past the end of a contiguous file and keeps it contiguous. */
  lemma WriteKeepsContiguous(img: Image, written: seq<SensorData>, x: SensorData)
    requires RingOk(State(img)) && Contiguous(img, written)
    ensures READING_BYTES * State(img).head <= |img.readings|
    ensures Contiguous(Written(img, x), written + [x])
  {
    StateOfWithState(WithData(img, x), Advance(State(img)));
    SlotOfWithData(img.readings, State(img).head, x, 0);
    HeadCounts(|written|);
  }

  lemma HeadCounts(n: nat)
    ensures (n + 1) % CIRCULAR_BUFFER_SIZE == Wrap(n % CIRCULAR_BUFFER_SIZE + 1)
    ensures READING_BYTES * (n % CIRCULAR_BUFFER_SIZE) <= READING_BYTES * Min(n, CIRCULAR_BUFFER_SIZE)
    ensures READING_BYTES * Min(n + 1, CIRCULAR_BUFFER_SIZE) ==
            Max(READING_BYTES * Min(n, CIRCULAR_BUFFER_SIZE),
                READING_BYTES * (n % CIRCULAR_BUFFER_SIZE) + READING_BYTES)
  {
  }

  /** The state record after one reading is taken. */
  method PoppedState(st: BufferState) returns (bufferState: BufferState)
    requires RingOk(st) && st.count > 0
    ensures bufferState == Pop(st)
  {
    WrapIsMod(st.tail + 1);
    bufferState := st.(tail := (st.tail + 1) % CIRCULAR_BUFFER_SIZE);
    bufferState := bufferState.(count := bufferState.count - 1);
  }

  /** The state record after one reading is added. */
  method AdvancedState(st: BufferState) returns (bufferState: BufferState)
    requires RingOk(st)
    ensures bufferState == Advance(st)
  {
    bufferState := st;
    WrapIsMod(bufferState.tail + 1);
    WrapIsMod(bufferState.head + 1);
    if bufferState.count < CIRCULAR_BUFFER_SIZE {
      bufferState := bufferState.(count := bufferState.count + 1);
    } else {
      bufferState := bufferState.(tail := (bufferState.tail + 1) % CIRCULAR_BUFFER_SIZE);
    }
    bufferState := bufferState.(head := (bufferState.head + 1) % CIRCULAR_BUFFER_SIZE);
  }

  class DataSaver {
    const fs: LittleFs
    var bufferOpen: bool
    var readingsOpen: bool
    var batchCount: Word

    /** Both batch handles are open or both are closed, and the state file holds a
        ring. */
    ghost predicate Valid()
      reads this, fs
    {
      && bufferOpen == readingsOpen && (bufferOpen ==> fs.Ready())
      && batchCount <= MAX_READINGS_PER_BATCH + 1
      && RingOk(State(fs.Disk()))
    }

    ghost function Abstract(): View<SensorData>
      requires Valid()
      reads this, fs
    {
      View(Queue(fs.Disk()), bufferOpen, batchCount)
    }

    /** A fresh object over files left by an earlier run, power cuts included. */
    constructor (fs: LittleFs)
      requires RingOk(State(fs.Disk()))
      ensures Valid() && this.fs == fs
      ensures Abstract() == View(Queue(fs.Disk()), false, 0)
    {
      this.fs := fs;
      bufferOpen, readingsOpen, batchCount := false, false, 0;
    }

    method Begin(outcome: Mount, createsBuffer: bool, createsReadings: bool) returns (ok: bool)
      requires Valid()
      modifies fs
      ensures Valid()
      ensures ok == fs.Ready()
      ensures fs.mounted <==> old(fs.mounted) || outcome != Fails
      ensures var wiped := !old(fs.mounted) && outcome == Formats;
              && fs.buffer == (if !wiped && old(fs.buffer).Some? then old(fs.buffer)
                               else if fs.mounted && createsBuffer then Some(Zeros(STATE_BYTES)) else None)
              && fs.readings == (if !wiped && old(fs.readings).Some? then old(fs.readings)
                                 else if fs.mounted && fs.buffer.Some? && createsReadings then Some([]) else None)
              && SameRing(fs.Disk(), if wiped then Image([], []) else old(fs.Disk()))
    {
      ok := MountFiles(outcome);
      if ok {
        ok := CreateFiles(createsBuffer, createsReadings);
      }
    }

    /** The first half of `Begin`: mounting formats a broken file system. */
    method MountFiles(outcome: Mount) returns (ok: bool)
      requires Valid()
      modifies fs
      ensures Valid() && ok == fs.mounted
      ensures fs.mounted <==> old(fs.mounted) || outcome != Fails
      ensures if !old(fs.mounted) && outcome == Formats then fs.buffer == fs.readings == None
              else fs.buffer == old(fs.buffer) && fs.readings == old(fs.readings)
    {
      EmptyState([]);
      ok := fs.Begin(outcome);
      assert fs.Disk() == Image([], []) || fs.Disk() == old(fs.Disk());
    }

    /** The second half of `Begin`: create whichever file is missing. */
    method CreateFiles(createsBuffer: bool, createsReadings: bool) returns (ok: bool)
      requires Valid() && fs.mounted
      modifies fs`buffer, fs`readings
      ensures Valid() && SameRing(fs.Disk(), old(fs.Disk()))
      ensures ok == fs.Ready()
      ensures fs.buffer == if old(fs.buffer).Some? then old(fs.buffer)
                           else if createsBuffer then Some(Zeros(STATE_BYTES)) else None
      ensures fs.readings == if old(fs.readings).Some? then old(fs.readings)
                             else if fs.buffer.Some? && createsReadings then Some([]) else None
    {
      if fs.buffer.None? {
        if !createsBuffer {
          return false;
        }
        CreateBuffer();
      }
      if fs.readings.None? {
        if !createsReadings {
          return false;
        }
        ghost var before := fs.Disk();
        fs.readings := Some([]);
        assert fs.Disk() == before;
      }
      return true;
    }

    /** A new state file holds the empty ring. */
    method CreateBuffer()
      requires fs.buffer.None?
      modifies fs`buffer
      ensures fs.buffer == Some(Zeros(STATE_BYTES)) && SameRing(fs.Disk(), old(fs.Disk()))
    {
      ghost var before := fs.Disk();
      EmptyState(before.readings);
      fs.buffer := Some([]);
      assert fs.Disk() == before;
      fs.StoreState(BufferState(0, 0, 0));
      StateOfWithState(before, BufferState(0, 0, 0));
      ZeroState();
    }

    /** `BatchState::OpenFiles` */
    method OpenFiles(opensBuffer: bool, opensReadings: bool) returns (ok: bool)
      requires bufferOpen == readingsOpen && (bufferOpen ==> fs.Ready())
      modifies this`bufferOpen, this`readingsOpen
      ensures ok == bufferOpen == readingsOpen
      ensures ok == (old(bufferOpen) || (fs.Ready() && opensBuffer && opensReadings))
    {
      if bufferOpen && readingsOpen {
        return true;
      }
      bufferOpen := fs.mounted && fs.buffer.Some? && opensBuffer;
      readingsOpen := fs.mounted && fs.readings.Some? && opensReadings;
      if !bufferOpen || !readingsOpen {
        CloseFiles();
        return false;
      }
      return true;
    }

    /** `BatchState::CloseFiles` */
    method CloseFiles()
      modifies this`bufferOpen, this`readingsOpen
      ensures !bufferOpen && !readingsOpen
    {
      if bufferOpen {
        bufferOpen := false;
      }
      if readingsOpen {
        readingsOpen := false;
      }
    }

    /** `DataSaver::Read`; `previous` is what the caller's variable held. */
    method Read(previous: SensorData, opensBuffer: bool, opensReadings: bool) returns (ok: bool, data: SensorData)
      requires Valid()
      modifies this, fs`buffer
      ensures Valid()
      ensures var opens := fs.Ready() && opensBuffer && opensReadings;
              && ok == ReadSucceeds(old(Abstract()), opens)
              && Abstract() == AfterRead(old(Abstract()), opens)
              && ok == (old(batchCount) <= 50 && (old(bufferOpen) || opens) && State(old(fs.Disk())).count > 0)
      ensures batchCount ==
              if old(batchCount) > 50 then 0 else if ok then old(batchCount) + 1 else old(batchCount)
      ensures ok ==> data == Fetched(fs.Disk().readings, State(old(fs.Disk())).tail, previous)
      ensures !ok ==> data == previous
      ensures fs.Disk() == if ok then Popped(old(fs.Disk())) else old(fs.Disk())
      ensures ok == bufferOpen == readingsOpen
      ensures fs.buffer.Some? == old(fs.buffer.Some?)
    {
      data := previous;
      if batchCount > MAX_READINGS_PER_BATCH {
        CloseFiles();
        batchCount := 0;
        return false, data;
      }
      var isOpen := OpenFiles(opensBuffer, opensReadings);
      if !isOpen {
        return false, data;
      }

      var bufferState := fs.LoadState();
      if bufferState.count == 0 {
        CloseFiles();
        return false, data;
      }

      data := Take(bufferState, previous);
      return true, data;
    }

    /** The second half of `Read`: take the oldest reading out of the files. */
    method Take(st: BufferState, previous: SensorData) returns (data: SensorData)
      requires fs.Ready() && st == State(fs.Disk())
      requires RingOk(st) && st.count > 0 && batchCount <= MAX_READINGS_PER_BATCH
      modifies this`batchCount, fs`buffer
      ensures batchCount == old(batchCount) + 1 && fs.buffer.Some?
      ensures data == Fetched(fs.Disk().readings, st.tail, previous)
      ensures fs.Disk() == Popped(old(fs.Disk())) && RingOk(State(fs.Disk()))
      ensures Queue(fs.Disk()) == Queue(old(fs.Disk()))[1..]
    {
      data := fs.LoadReading(st.tail, previous);
      var bufferState := PoppedState(st);
      batchCount := batchCount + 1;
      PoppedIsPop(fs.Disk());
      fs.StoreState(bufferState);
    }

    /** `DataSaver::Write`; the two files are opened afresh. */
    method Write(data: SensorData, opensBuffer: bool, opensReadings: bool)
      requires Valid()
      modifies fs`buffer, fs`readings
      ensures Valid()
      ensures var opens := fs.Ready() && opensBuffer && opensReadings;
              && Abstract() == AfterWrite(old(Abstract()), data, opens)
              && fs.Disk() == if opens then Written(old(fs.Disk()), data) else old(fs.Disk())
      ensures fs.buffer.Some? == old(fs.buffer.Some?) && fs.readings.Some? == old(fs.readings.Some?)
    {
      var buffer := fs.mounted && fs.buffer.Some? && opensBuffer;
      var readings := fs.mounted && fs.readings.Some? && opensReadings;
      if !buffer || !readings {
        return;
      }
      WrittenIsPush(fs.Disk(), data);
      WriteFiles(data, true, true);
    }

    /** The two updates of `Write`; the flags say which of them a power cut lets
        reach its file. */
    method WriteFiles(data: SensorData, stateLands: bool, dataLands: bool)
      requires fs.Ready() && RingOk(State(fs.Disk()))
      modifies fs`buffer, fs`readings
      ensures fs.Ready() && fs.Disk() == Interrupted(old(fs.Disk()), data, stateLands, dataLands)
    {
      var bufferState := fs.LoadState();
      if dataLands {
        fs.StoreReading(bufferState.head, data);
        assert fs.Disk() == WithData(old(fs.Disk()), data);
      }
      bufferState := AdvancedState(bufferState);
      if stateLands {
        fs.StoreState(bufferState);
      }
    }
  }

  /** Missing files stand for the empty ring. */
  lemma EmptyIsSound(readings: File)
    ensures Sound(Image([], readings)) && Queue(Image([], readings)) == []
    ensures Contiguous(Image([], []), [])
  {
    EmptyState(readings);
    EmptyState([]);
  }

  /** Power fails in the first `Write` of all, after the state has landed: the queue
      counts a slot the file does not hold, and the next read hands out whatever its
      variable held before. */
  lemma FirstWriteCut(x: SensorData, previous: SensorData)
    ensures var img := Interrupted(Image([], []), x, true, false);
            && Sound(Image([], [])) && RingOk(State(img)) && !Sound(img)
            && State(img).count == 1 && Fetched(img.readings, State(img).tail, previous) == previous
  {
    EmptyIsSound([]);
    EmptyState([]);
    InterruptedSound(Image([], []), x, true, false);
    InterruptedQueue(Image([], []), x, true, false);
    FetchedIs([], 0, previous);
    StateOfWithState(Image([], []), Advance(BufferState(0, 0, 0)));
  }
}
