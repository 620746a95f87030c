# CO2Sensor: a verified model of a reading's way from sensor to dashboard

The firmware of the CO2 sensor stores readings in flash while it is offline and
sends them in batches when it is online again; the dashboard reassembles lines
from TCP, queues them and parses them. This project models that path in Dafny,
proves each imperative piece against a specification, and proves properties of
the specifications over whole runs.

- `Words`, `Text`, `Protocol`: 32-bit words, cutting strings at a delimiter, the
  printed form of a reading and its frame.
- `Flash`, `PowerCuts`, `DataSaver`, `StoreRuns`: the two-file ring, byte by byte;
  what a power cut does to its places; the class over it; every interleaving of
  its operations, of reboots and of power cuts.
- `NetworkTask`, `Lifetime`: save, throttle, drain, send; the ledger of every reading,
  over one boot and over a life of boots and power losses.
- `Lines`, `Server`, `Parser`: line reassembly, the server as a state machine
  over completions with time, and the parser.
- `CVQueue`, `Dispatch`: the queue as a monitor with any number of threads, and the
  loop that hands its events to the callbacks.
- `RunningAvg`: both running averages, for any arithmetic.
- `SerialConfig`: the bounded line reader, the in-place tokeniser and the copies
  into the fixed-size fields.
- `StreamBuffer`: the vendored `basic_streambuf`.
- `EndToEnd`: firmware, wire, server and parser put together.

Each class carries the source's fields, and its methods state their new state
through a specification function (`Abstract`, `Books`, `View`, `Contents`,
`Window`). Whole-run statements are lemmas about those functions, or methods such
as `StoreRuns.Replay` that drive the Dafny class through any list of operations.

## Assumptions

- All open handles of a file see its current contents; a write past the end of a
  file fills the gap with zeros; each file lands whole or not at all on a power
  cut.
- A read on a cancelled or closed socket completes with an error. A timer wait
  whose deadline passed before it was cancelled may still complete successfully
  (Dashboard/Dependencies/boost_asio/asio/basic_waitable_timer.hpp:396-404).
- An exception that leaves a server handler ends the server: the accept handler
  names the peer before anything else, on both branches, and asking a socket
  that has none throws (Dashboard/Source/Server/Server.cpp:87-100;
  Dashboard/Dependencies/boost_asio/asio/basic_socket.hpp:1625-1632).
- `%.2f` prints the exact binary value rounded once, ties to even, and prints
  non-finite values as `[-]inf` and `[-]nan`. `std::stof` is a parameter.
- No stream buffer ends within 2^31 bytes of the top of the address space, so adding
  an `int` to one of its positions does not wrap.
- After a `strtok` call that reaches the end of the string, later calls with a
  null pointer find nothing (section 7.24.5.8 of ISO/IEC 9899:2011).

## What the proofs show about the code

Each item names the exact condition and, where the code fails, an input.

- A full batch is 51 readings, because the test is `>` (`StoreRuns.BatchIsBounded`).
- The project's README promises that all accumulated data is sent after a reconnect.
  A drain pops before it looks at the link. It loses nothing exactly when the link is
  up at each guard and the client is there at each `Println` it goes through
  (`NetworkTask.DrainLosesNothing`). When the client goes for good it loses two
  readings exactly if that is between a guard and its `Println` with another reading
  to come, one if it is earlier in the drain, none after it
  (`NetworkTask.DrainLosesAt`); the fresh reading can go with them
  (`NetworkTask.ThreeLost`). When WiFi goes and the client object does not notice, it
  loses one at most (`NetworkTask.DrainLosesAtWiFi`).
- Every 52nd read in a row hands out nothing, because a full batch closes the files
  first (`StoreRuns.EveryBatchPauses`).
- A power cut inside `Write` can leave a queue that counts a slot the readings file
  does not hold, in exactly one of the four cases and only before the file has grown
  that far (`Flash.InterruptedSound`). The read of that slot then hands out whatever
  the caller's variable held before (`DataSaver.FirstWriteCut`). A cut spoils a
  reading only if it tears the write: the state lands alone, or the data alone over
  the oldest place of a full ring, and then one at most
  (`StoreRuns.CutsSpoilOneEach`, `Lifetime.LifeKeeps`). Such a reading can be sent
  (`StoreRuns.SpoiledIsRead`).
- The server keeps half-received lines across disconnections. The first whole frame
  after them is glued to them and lost; in one exact case it is accepted under the
  wrong tag (`EndToEnd.FragmentsGlue`, `Parser.WrongTag`). Over any connections the
  other frames come through, and each drop costs one at most
  (`EndToEnd.DropsHurtNext`, `EndToEnd.DropsGlueFew`).
- A late error completion of an earlier socket drops the client that is connected
  now (`Server.DroppedExactly`, `Server.StaleErrorDrops`).
- A client that times out is announced as disconnected twice: `Disconnect` pushes before
  it looks at the socket (`Server.TimedOutTwice`). There are as many disconnections as
  failed reads, late timers and calls of `Stop` (`Server.EventsCounted`).
- The parser reads a number's leading digits and cuts timestamp and CO2 to 32 bits;
  blanks, a sign and trailing characters are let through (`Parser.AcceptedExactly`,
  `Parser.StoulReads`).
- The server ends exactly when an accepted socket cannot name its peer
  (`Server.EventsOfRuns`, `Server.NamelessEnds`).
- `Stop` clears the flag before it pushes its disconnection. The callbacks can hear of
  it exactly when the loop is waiting in `wait_and_pop` at that moment, with nothing
  queued or owed (`Dispatch.LastEventExactly`); in a given run they do exactly when it
  is then the first event pushed and is handed on (`Dispatch.HeardStopIs`). A run in
  which they do not is `Dispatch.LastEventMissed`.
- `Reconnect` is called exactly when the link is found down and the gap since the last
  call, modulo 2^32, exceeds 10000 ticks (`NetworkTask.ReconnectExactly`). So a gap just
  above 2^32 ticks is mistaken for a short one (`NetworkTask.GapMistaken`), and a call
  never comes early (`NetworkTask.DueIsLate`).
- The firmware average is the floored mean exactly when the window's sum is below
  2^32 (`RunningAvg.FlooredMean`, `RunningAvg.AverageWraps`).
- A configuration line with three fields is copied without looking at their lengths:
  it overruns a destination exactly when a field is longer than 32, 63 or 15
  characters (`SerialConfig.CarriedOutcome`, `SerialConfig.LongNameOverruns`).
- `consume` adds before it compares: asked for 2^64 - 1 bytes it moves the get
  position one byte back (`StreamBuffer.ConsumedExactly`, `StreamBuffer.ConsumeWraps`).
  `commit` narrows its step to an `int`: it is right exactly up to 2^31 - 1 bytes
  (`StreamBuffer.CommittedExactly`, `StreamBuffer.CommitTurns`).
- The project's README says the dashboard drops a silent client after about twice
  the sensor period; the code's bounds are 10.5 s and 21 s, for a period of 7 s
  (`Server.SilentClient`).

## Model

| member | source | states |
|---|---|---|
| Flash.ReadingRoundTrip | Protocol/Protocol.hpp:25-30 | the 16 bytes of a reading are its four words in order, and decode to the same reading |
| Flash.StateRoundTrip | Firmware/src/DataSaver.hpp:13-18 | the 12 bytes of the ring state are its three words in order, and decode to the same state |
| Words.LittleEndian | Firmware/src/DataSaver.cpp:138-140 | the bytes of a word are little-endian |
| Flash.SlotOfWithData | Firmware/src/DataSaver.cpp:137-140 | writing one slot changes that slot only, and the file grows to its end |
| Flash.RingOkIsMod | Firmware/src/DataSaver.cpp:142-148 | the ring invariant is Head == (Tail + Count) % 57600, Count <= 57600, both positions in range |
| Flash.EntriesWithData | Firmware/src/DataSaver.cpp:137-140 | the slot about to be written is live only when the ring is full, and then it is the oldest entry |
| Flash.EntriesAdvance | Firmware/src/DataSaver.cpp:142-152 | the state update makes the slot at the old head the newest entry and drops the oldest of a full ring |
| Flash.WrittenIsPush | Firmware/src/DataSaver.cpp:132-152 | both updates together are a push on a FIFO of 57600 readings that drops its oldest |
| Flash.PoppedIsPop | Firmware/src/DataSaver.cpp:91-111 | a completed read removes exactly the oldest reading and keeps the ring invariant |
| Flash.InterruptedWrite | Firmware/src/DataSaver.cpp:132-155 | for each landing of the two files: the ring invariant holds, no slot but the one at the old Head changes, and the exact queue that results |
| Flash.InterruptedSound | Firmware/src/DataSaver.cpp:132-155 | after a power cut every live slot lies inside the readings file, except when the state landed alone and the file does not hold the old Head slot |
| PowerCuts.CutKeeps | Firmware/src/DataSaver.cpp:132-155 | a `Write`, cut short or not, leaves every unspoiled place inside the file with the reading meant for it; which place each cut spoils |
| DataSaver.WriteKeepsContiguous | Firmware/src/DataSaver.cpp:137-152 | a file without gaps is exactly min(writes, 57600) slots long, no write seeks past its end, and a write keeps it so |
| DataSaver.FetchedIs | Firmware/src/DataSaver.cpp:102-103 | a slot inside the file is read whole; from one outside it nothing is read and the variable keeps its previous reading |
| DataSaver.FetchedBytes | Firmware/src/DataSaver.cpp:102-103 | byte by byte, also where the file ends inside the slot: what the file holds lands over the variable, the rest of it stays |
| DataSaver.LittleFs.LoadReading | Firmware/src/DataSaver.cpp:102-103 | the 32-bit offset does not overflow, and the bytes delivered land over those of the variable |
| DataSaver.FirstWriteCut | Firmware/src/DataSaver.cpp:96-103 | a cut in the very first `Write` leaves a counted slot outside the file, and the read of it hands out the previous reading |
| DataSaver.DataSaver.constructor | Firmware/src/DataSaver.hpp:20-43 | a fresh object over files left by any earlier run, power cuts included, starts with closed handles, batch count 0 and the stored queue |
| DataSaver.DataSaver.Begin | Firmware/src/DataSaver.cpp:34-77 | success exactly when both files exist afterwards, and what each file holds; the ring and the readings file survive unless the file system had to be formatted |
| DataSaver.DataSaver.OpenFiles | Firmware/src/DataSaver.cpp:7-23 | both handles end open, or both closed |
| DataSaver.DataSaver.Read | Firmware/src/DataSaver.cpp:79-115 | exactly when it succeeds, what it hands out, and the bytes of both files; handles and batch counter on every return path, also after a failed open; at most 51 per batch |
| DataSaver.DataSaver.Write | Firmware/src/DataSaver.cpp:117-156 | the bytes of both files, and the bounded push they amount to; nothing at all when a file does not open |
| StoreRuns.Replay | Firmware/src/DataSaver.cpp:34-156 | any interleaving of Begin, Write, Read, reboots and power cuts on the two files hands out and leaves what the abstract FIFO does, but for the spoiled places, at most one a torn write; without torn writes exactly; a readings file without gaps if no cut let one file alone through |
| StoreRuns.CutsSpoilOneEach | Firmware/src/DataSaver.cpp:79-156 | over every run the spoiled readings handed out and still stored are together no more than the torn writes: cuts whose state landed alone, or whose data landed alone over the oldest place of a full ring |
| StoreRuns.QueueEndsHistory | Firmware/src/DataSaver.cpp:79-156 | over every run without a torn write the queue is the end of the write history |
| StoreRuns.SpoiledIsRead | Firmware/src/DataSaver.cpp:96-114 | a run of one torn write in which a read hands out a spoiled reading |
| StoreRuns.RunIsFifo | Firmware/src/DataSaver.cpp:79-156 | over every run without a format: stored then added equals taken then left; outputs are among the taken, in order, and every other taken reading was pushed out of a full ring: |taken| is outputs plus overflows |
| StoreRuns.BatchIsBounded | Firmware/src/DataSaver.cpp:81-86 | a stretch of successful reads is no longer than the room in the batch, whatever is written in between |
| StoreRuns.EveryBatchPauses | Firmware/src/DataSaver.cpp:79-115 | k reads in a row hand out the oldest k - floor((batch + k) / 52) readings in order |
| NetworkTask.RunBalanced | Firmware/src/Network/NetworkTask.cpp:29-66 | over every run: saved readings = those gone, each with one fate, then those stored; overwritten only by one saved a whole ring later; SRH frames are those with fate sent; saved = stored at boot then the arrivals with fate saved; SRD frames are the arrivals with fate sent |
| NetworkTask.LedgerByPosition | Firmware/src/Network/NetworkTask.cpp:29-66 | the same position by position: no reading is lost from the books or booked twice, and reading i is overwritten only once reading i + 57600 was saved |
| NetworkTask.RunArrives | Firmware/src/Network/NetworkTask.cpp:33-63 | every activation's reading arrives once, in order |
| NetworkTask.ActivateWrites | Firmware/src/Network/NetworkTask.cpp:39-61 | each activation gives its reading one fate, with its exact condition on both flags of the link, the clock and the files: saved, not saved, sent fresh, or lost when the client is gone after the drain |
| NetworkTask.DrainBounded | Firmware/src/Network/NetworkTask.cpp:53-57 | a drain takes at most the rest of a batch of 51 and loses at most one reading at its guard |
| NetworkTask.HaltedBalanced | Firmware/src/Network/NetworkTask.cpp:53-57 | the ledger holds when power goes inside a drain, after any number of turns, with or without a reading in hand, which then has a fate of its own |
| NetworkTask.AllTurns | Firmware/src/Network/NetworkTask.cpp:53-57 | a drain cut after more turns than readings are stored is the whole drain |
| NetworkTask.DrainLoses | Firmware/src/Network/NetworkTask.cpp:53-57 | if the connection comes back only through Reconnect, a drain loses at most one reading at Println and one at the guard |
| NetworkTask.DrainLosesNothing | Firmware/src/Network/NetworkTask.cpp:53-57 | in every world a drain loses nothing exactly when WiFi and client are up at the guard and the client is there at Println for each reading the batch has room for |
| NetworkTask.DrainLosesAt | Firmware/src/Network/NetworkTask.cpp:53-57 | the number lost when the client goes at a given moment for good: two exactly between a guard and its Println with another reading to come, else one, none after the drain |
| NetworkTask.DrainLosesAtWiFi | Firmware/src/Network/NetworkTask.cpp:53-57 | the number lost when WiFi goes at a given moment and the client object stays: one exactly before the last guard, else none |
| NetworkTask.ThreeLost | Firmware/src/Network/NetworkTask.cpp:53-60 | a run from boot in which one drain loses one reading at Println, one at the guard, and the fresh one after them |
| NetworkTask.StableDrain | Firmware/src/Network/NetworkTask.cpp:53-57 | with a stable link a drain sends exactly the oldest readings the batch has room for, in order, and loses none |
| NetworkTask.StableActivate | Firmware/src/Network/NetworkTask.cpp:51-61 | under a stable link one activation sends the oldest saved readings as SRH, then the fresh one as SRD |
| NetworkTask.BacklogShrinks | Firmware/src/Network/NetworkTask.cpp:51-61 | k activations under a stable link shorten the backlog by exactly the capacity of k batches |
| NetworkTask.BacklogEmpties | Firmware/src/Network/NetworkTask.cpp:51-61 | a backlog of n is empty after 1 + ceil(n / 51) activations from any batch counter |
| NetworkTask.DueIsLate | Firmware/src/Network/NetworkTask.cpp:45 | the modular tick test never fires before the delay has passed |
| NetworkTask.DueExactly | Firmware/src/Network/NetworkTask.cpp:44-45 | it fires exactly when the gap modulo 2^32 exceeds the delay, so exactly on time for gaps below 2^32 |
| NetworkTask.GapMistaken | Firmware/src/Network/NetworkTask.cpp:44-45 | a gap of 2^32 + 5 ticks does not fire |
| NetworkTask.RunThrottled | Firmware/src/Network/NetworkTask.cpp:37-49 | over every run, any two Reconnect calls are more than 10000 ticks apart in true time, across counter wraps |
| NetworkTask.ReconnectExactly | Firmware/src/Network/NetworkTask.cpp:39-49 | exactly when an activation calls Reconnect, and what that asks of the link: WiFi is begun again only if it is down, then the server is dialled |
| NetworkTask.OfflineRetries | Firmware/src/Network/NetworkTask.cpp:37-49 | after any run, an activation that finds the link down leaves the last attempt at most 10000 ticks behind it, unless the counter went round since |
| NetworkTask.FirstReconnect | Firmware/src/Network/NetworkTask.cpp:37-49 | from boot out of reach the first call comes exactly once the counter has passed 10000 |
| NetworkTask.NetworkTask.TryReconnect | Firmware/src/Network/NetworkTask.cpp:44-49 | the exact condition on the tick counter, the new attempt and the calls on the link |
| NetworkTask.Connection.IsConnected | Firmware/src/Network/Connection.cpp:32-35 | connected means WiFi and client both |
| NetworkTask.Connection.Reconnect | Firmware/src/Network/Connection.cpp:24-30 | WiFi is begun again exactly if it is down, and the server is dialled in any case |
| NetworkTask.Connection.Println | Firmware/src/Network/Connection.cpp:48-52 | text and CRLF are sent exactly if the client is connected |
| NetworkTask.NetworkTask.DrainSaved | Firmware/src/Network/NetworkTask.cpp:53-57 | the inner loop over the files and the connection does what the books' drain does |
| NetworkTask.NetworkTask.OnReading | Firmware/src/Network/NetworkTask.cpp:35-63 | one turn of the endless loop over the files and the connection keeps the books exactly, dials included |
| NetworkTask.NetworkTask.constructor | Firmware/src/Network/NetworkTask.cpp:14-37 | the task starts over whatever places an earlier run left, spoiled ones included |
| Lifetime.LifeKeeps | Firmware/src/Network/NetworkTask.cpp:29-66 | over any list of boots, each ended by a loss of power between activations, inside `Write` or anywhere inside a drain: everything ever saved has left the store with one fate or is stored, by position, spoiled places aside; overwritten only a ring later; history and fresh frames match the fates; the spoiled readings, gone or stored, are no more than the torn writes |
| Lifetime.LiveAll | Firmware/src/DataSaver.cpp:34-156 | the Dafny classes over any list of boots and power losses from an empty flash put the frames of that ledger on the wire and leave its places in the files |
| Protocol.PayloadFields | Protocol/Protocol.hpp:33-38 | a payload is at most 109 characters, never truncated, and cut at commas gives timestamp, temperature, humidity and CO2 in this order, the integers as their decimal digits |
| Protocol.PayloadInjective | Protocol/Protocol.hpp:33-38 | for finite floats equal payloads mean equal integers and floats of the same sign and nearest hundredth, and conversely |
| Protocol.PrintedNearest | Protocol/Protocol.hpp:36 | the digits `%.2f` prints of every finite float are its nearest hundredth, the even one on a tie, and the sign is its sign bit; the four texts of the others |
| Protocol.PrintedExample | Protocol/Protocol.hpp:36 | 22.5 is printed as 22.50 |
| Protocol.FrameWhole | Firmware/src/Network/NetworkTask.cpp:66-71 | a frame is tag, payload length, colon and payload, at most 116 characters, never truncated, and holds neither CR nor LF |
| Protocol.FrameInjective | Firmware/src/Network/NetworkTask.cpp:66-71 | frames are equal exactly when tag and payload are |
| Text.SplitJoin | Dashboard/Source/Utilities/Utilities.cpp:5-20 | splitting undoes joining exactly for delimiter-free tokens |
| Text.JoinSplit | Dashboard/Source/Utilities/Utilities.cpp:5-20 | joining undoes splitting for every string |
| Text.SplitString | Dashboard/Source/Utilities/Utilities.cpp:5-20 | the loop returns the delimiter-free pieces that join back to the string |
| Text.SplitConcat | Dashboard/Source/Server/Server.cpp:138-151 | appending text to a string touches only its last piece |
| Lines.MessagesConcat | Dashboard/Source/Server/Server.cpp:138-151 | keeping only the text after the last LF between reads loses nothing |
| Lines.ChunkIndependent | Dashboard/Source/Server/Server.cpp:138-151 | the messages depend on the concatenated stream only, for every way of cutting it |
| Lines.SenderInverse | Dashboard/Source/Server/Server.cpp:138-151 | frames sent with CRLF come back as the same list exactly when none holds an LF |
| Lines.LinesCome | Dashboard/Source/Server/Server.cpp:138-151 | lines ended by CRLF or by a bare LF, each its own way, come back whole, and what follows the last is the residue |
| Lines.StreamIsLines | Dashboard/Source/Server/Server.cpp:138-151 | every stream is its messages, each with one such ending, and then its residue |
| Server.StepInv | Dashboard/Source/Server/Server.cpp:68-180 | every handler and every step of Stop, in every order, keeps: accept outstanding xor socket live, one un-cancelled read on a live socket, at most one un-cancelled wait, events in order, messages = lines received |
| Server.ReadIsLive | Dashboard/Source/Server/Server.cpp:130-155 | a successful read always belongs to the live socket, so re-arming finds it |
| Server.WellFormedIsRegular | Dashboard/Source/Server/Server.cpp:96-166 | the order of events is exactly a prefix of Disconnected* (Connected Message* Disconnected+)* |
| Server.EventsOfRuns | Dashboard/Source/Server/Server.cpp:68-180 | after every run from start-up: events in order, messages = lines of all bytes received over all connections, the accept, read and timer counts, and the server has ended exactly when an accepted socket could not name its peer |
| Server.NamelessEnds | Dashboard/Source/Server/Server.cpp:87-100 | an accept whose socket cannot name its peer ends the server, whether it failed or not |
| Server.RunHears | Dashboard/Source/Server/Server.cpp:93-153 | over every run the bytes received and the last packet's time are those of the successful completions |
| Server.EventsExactly | Dashboard/Source/Server/Server.cpp:80-180 | what each completion pushes, live client or not: a connection, the completed lines, one disconnection, or nothing |
| Server.RunAnnounces | Dashboard/Source/Server/Server.cpp:80-180 | the events of every run, read off its completions alone |
| Server.EventsCounted | Dashboard/Source/Server/Server.cpp:80-180 | over every run as many connections as accepted clients, as many disconnections as failed reads, late timers and Stops |
| Server.TimedOutTwice | Dashboard/Source/Server/Server.cpp:106-180 | a run in which a client that times out is announced as disconnected twice |
| Server.LinkExactly | Dashboard/Source/Server/Server.cpp:68-180 | after each completion: who is connected, which accepts are started (none for a drop once the flag is cleared), and the flags |
| Server.TimerExactly | Dashboard/Source/Server/Server.cpp:106-128 | after each completion: the deadlines left running, armed 10500 ms ahead by connections and timely waits alone |
| Server.CancelledWaitEnds | Dashboard/Dependencies/boost_asio/asio/basic_waitable_timer.hpp:396-404 | a cancelled wait still succeeds exactly if its deadline had passed |
| Server.DroppedExactly | Dashboard/Source/Server/Server.cpp:106-180 | what drops a live client: a failed read of any socket, a timer that finds it late, Stop's Disconnect; nothing else |
| Server.StaleErrorDrops | Dashboard/Source/Server/Server.cpp:130-180 | a run from start-up in which the first client's late read error drops the second client |
| Server.SilentClient | Dashboard/Source/Server/Server.cpp:106-128 | with prompt timers a client silent since p is gone by p + 21000 ms, is never timed out at or before p + 10500 ms, through any number of re-arms |
| Server.TimerFires | Dashboard/Source/Server/Server.cpp:106-127 | the timer of a live client can fire at its deadline, which lies within 21000 ms of the last packet |
| Server.SilentIsDropped | Dashboard/Source/Server/Server.cpp:106-128 | after every run with prompt timers, the timer alone can drop a live client no later than 21000 ms after its last packet |
| Server.Server.Disconnect | Dashboard/Source/Server/Server.cpp:164-180 | one event always; with a socket, its reads and the timer are cancelled and an accept is started if running |
| Server.Server.OnAcceptDone | Dashboard/Source/Server/Server.cpp:83-103 | the accept handler's whole new state |
| Server.Server.OnWaitDone | Dashboard/Source/Server/Server.cpp:113-127 | the timer handler's whole new state |
| Server.Server.OnReadDone | Dashboard/Source/Server/Server.cpp:134-161 | the read handler's whole new state; a failed read pushes a disconnection, live socket or not |
| Server.Server.SplitLines | Dashboard/Source/Server/Server.cpp:138-151 | the erase-from-the-front loop pushes exactly the complete lines and keeps the residue |
| Server.Server.Stop | Dashboard/Source/Server/Server.cpp:68-78 | its three steps, one after another; each is also a completion of its own that any handlers may precede and follow |
| Parser.ParseFrame | Dashboard/Source/Server/DataProcessing/Parser.cpp:22-82 | every printed frame is accepted with its tag, timestamp and CO2 exactly when stof accepts its two decimals |
| Parser.AcceptedExactly | Dashboard/Source/Server/DataProcessing/Parser.cpp:22-82 | exactly which messages are accepted, and as what: one of the two tags, the payload's true length, one colon, four fields, each of them readable |
| Parser.StoulReads | Dashboard/Source/Server/DataProcessing/Parser.cpp:44 | blanks, a sign, digits and whatever follows are read as the digits say, modulo 2^64 behind a minus, and refused exactly from 2^64 on |
| Parser.StoulRefuses | Dashboard/Source/Server/DataProcessing/Parser.cpp:44 | nothing else is read as a number |
| Parser.PrefixRejected | Dashboard/Source/Server/DataProcessing/Parser.cpp:22-56 | a frame cut short anywhere is rejected |
| Parser.GluedFrame | Dashboard/Source/Server/DataProcessing/Parser.cpp:22-82 | any number of fragments glued to a whole frame are accepted in exactly one case, under the first fragment's tag |
| Parser.WrongTag | Dashboard/Source/Server/DataProcessing/Parser.cpp:22-82 | a history frame broken off before its colon, then the same reading sent fresh, is taken for history |
| CVQueue.ActInv | Dashboard/Source/Utilities/CVQueue.hpp:31-62 | every step of every thread keeps: pushed = popped then queued; while anyone sleeps, queued items <= woken consumers + pushers still to notify |
| CVQueue.RunInv | Dashboard/Source/Utilities/CVQueue.hpp:31-62 | the same after every interleaving of any number of threads |
| CVQueue.NoLostWakeup | Dashboard/Source/Utilities/CVQueue.hpp:31-52 | when nothing is under way and a consumer sleeps, the queue is empty and not stopped |
| CVQueue.FifoOnce | Dashboard/Source/Utilities/CVQueue.hpp:31-52 | over every interleaving the values handed out are a prefix of those pushed |
| CVQueue.RefusedExactly | Dashboard/Source/Utilities/CVQueue.hpp:46-47 | nullopt goes exactly to a thread that finds the queue stopped and empty |
| CVQueue.ThreadsExactly | Dashboard/Source/Utilities/CVQueue.hpp:31-62 | after each step: who sleeps, who is woken (by notify_all everyone), and who is handed which value |
| CVQueue.OwedExactly | Dashboard/Source/Utilities/CVQueue.hpp:31-62 | each push owes one notify_one, each stop one notify_all, and only a stop sets the flag |
| CVQueue.CallsAccounted | Dashboard/Source/Utilities/CVQueue.hpp:41-52 | over every interleaving, until a stop, every call of wait_and_pop was handed a value or is still inside |
| CVQueue.StopWakesAll | Dashboard/Source/Utilities/CVQueue.hpp:54-62 | once a stop has notified, nobody sleeps now or later |
| CVQueue.CVQueue.WaitAndPop | Dashboard/Source/Utilities/CVQueue.hpp:41-52 | under the lock: sleep, nullopt or the front value, and the monitor state that results |
| CVQueue.CVQueue.PushUnderLock | Dashboard/Source/Utilities/CVQueue.hpp:31-37 | the value is queued and a notification is owed |
| Dispatch.CallbacksInOrder | Dashboard/Source/Server/Server.cpp:52-66 | over every interleaving of handlers, pushes, Stop and the loop: the callbacks see a well-ordered prefix of the server's events, and the rest is in hand, queued or still to be pushed |
| Dispatch.FinishedExactly | Dashboard/Source/Server/Server.cpp:54-59 | the loop ends exactly when its test finds the flag cleared |
| Dispatch.NeverRefused | Dashboard/Source/Server/Server.cpp:54-78 | over every interleaving wait_and_pop never answers the loop with nothing: Stop pushes before it stops the queue, and the loop ends on the flag before it has taken that push |
| Dispatch.LastEventExactly | Dashboard/Source/Server/Server.cpp:52-78 | when Stop clears the flag, some continuation lets the callbacks hear of its disconnection exactly if the loop waits with nothing queued or owed |
| Dispatch.HeardStopIs | Dashboard/Source/Server/Server.cpp:52-78 | in every run from that moment they hear of it exactly if it is the first event after the flag and one event more is handed; it is then the last |
| Dispatch.LastEventMissed | Dashboard/Source/Server/Server.cpp:54-78 | a run in which the callbacks hear of a connection and never of the disconnection Stop pushes |
| RunningAvg.SlideSum | Firmware/src/Utilities/RunningAvgHelper.hpp:16-26 | subtracting the oldest and adding the newest keeps the sum of the window modulo 2^32, through every wrap |
| RunningAvg.WordSum | Firmware/src/Utilities/RunningAvgHelper.hpp:16-26 | over every sequence of pushes the stored 32-bit sum is that of the window modulo 2^32 |
| RunningAvg.RealMean | Firmware/src/Utilities/RunningAvgHelper.hpp:16-35 | over every sequence of pushes, without rounding, the answer is the mean of the window |
| RunningAvg.FlooredMean | Firmware/src/Utilities/RunningAvgHelper.hpp:29-35 | the answer is the floored mean exactly when the sum of the window is below 2^32 |
| RunningAvg.AverageWraps | Firmware/src/Utilities/RunningAvgHelper.hpp:29-35 | a window of two words whose answer is 0 and whose mean is 2^31 |
| RunningAvg.AverageBetween | Firmware/src/Utilities/RunningAvgHelper.hpp:29-35 | when size times the largest value is below 2^32 the average lies between smallest and largest |
| RunningAvg.SmallWindowsFit | Firmware/src/Sensor/Sensor.cpp:66-92 | 16-bit CO2 values in a window of five never overflow |
| RunningAvg.CircularBuffer.Push | Firmware/src/Utilities/CircularBuffer.hpp:14-24 | the window slides by one |
| RunningAvg.CircularBuffer.Oldest | Firmware/src/Utilities/CircularBuffer.hpp:26 | the value that leaves the window next |
| RunningAvg.RingAverage.Push | Firmware/src/Utilities/RunningAvgHelper.hpp:16-27 | the window slides; the oldest is subtracted from the sum before the newest is added |
| RunningAvg.ListAverage.Push | Dashboard/Source/Utilities/RunningAvgHelper.hpp:15-31 | the same over a list |
| RunningAvg.Compare | Dashboard/Source/Utilities/RunningAvgHelper.hpp:15-39 | for every arithmetic, rounding ones included, every size and push sequence, both helpers give the same answer after every push |
| RunningAvg.WordAverages | Firmware/src/Utilities/RunningAvgHelper.hpp:29-35 | in 32-bit words these are the answers of the last size values |
| SerialConfig.HeldIsDelivered | Firmware/src/Config.cpp:71-98 | for a line of any length L without its CRs, the last L mod 128 characters are held |
| SerialConfig.LineDecides | Firmware/src/Config.cpp:68-117 | every line of a stream with three tokens is stored or overruns by their lengths alone; any other is passed over, and the lines after it decide |
| SerialConfig.TokensFound | Firmware/src/Config.cpp:100-103 | tokens are found with any number of delimiters between, before and after them |
| SerialConfig.ReadLine | Firmware/src/Config.cpp:66-98 | the reader stays in bounds for every byte stream and leaves the held line NUL-terminated |
| SerialConfig.NextScanTakes | Firmware/src/Config.cpp:100-103 | one strtok call takes the first maximal run of non-delimiters off the text that is left |
| SerialConfig.FourCallsCount | Firmware/src/Config.cpp:100-109 | the four calls accept exactly lines with three maximal runs |
| SerialConfig.FourCallsPoint | Firmware/src/Config.cpp:100-115 | the first three results still locate the three tokens after the later calls cut the buffer |
| SerialConfig.Tokeniser.Next | Firmware/src/Config.cpp:100-103 | the two scanning loops and the in-place NUL do what the specification of one call says |
| SerialConfig.CopyText | Firmware/src/Config.cpp:113-115 | a copy stays inside its destination exactly when the text is shorter than it; then the destination starts with the text and a NUL, and the rest is unchanged |
| SerialConfig.Config.ReadSerialAndParse | Firmware/src/Config.cpp:64-119 | the first line with exactly three fields is stored in the three arrays if its fields fit, overruns one if not; if there is none, nothing is stored |
| SerialConfig.ConfigRoundTrip | Dashboard/Source/Server/SerialHandler.cpp:30 | the printed line is stored as the same fields exactly when they are plain, non-empty and at most 32, 63 and 15 characters long |
| SerialConfig.CarriedOutcome | Firmware/src/Config.hpp:25-27 | plain fields that fit the line buffer together are stored if they are at most 32, 63 and 15 characters long, and overrun otherwise |
| SerialConfig.LongNameOverruns | Firmware/src/Config.cpp:111-115 | a network name of 40 characters overruns its field |
| StreamBuffer.BasicStreambuf.constructor | Dashboard/Dependencies/boost_asio/asio/basic_streambuf.hpp:131-141 | an empty buffer of the given limit with a put area of 128 bytes at most |
| StreamBuffer.BasicStreambuf.Reserve | Dashboard/Dependencies/boost_asio/asio/basic_streambuf.hpp:308-346 | compaction and growth keep the unread bytes, and the size of the put area that results; it throws exactly when size plus request passes the limit |
| StreamBuffer.BasicStreambuf.Prepare | Dashboard/Dependencies/boost_asio/asio/basic_streambuf.hpp:214-219 | throws exactly when size() + n > max_size() |
| StreamBuffer.BasicStreambuf.Commit | Dashboard/Dependencies/boost_asio/asio/basic_streambuf.hpp:233-238 | moves the first bytes of the put area to the input sequence, all of them at most, whenever the step fits an int |
| StreamBuffer.CommittedExactly | Dashboard/Dependencies/boost_asio/asio/basic_streambuf.hpp:235-236 | the put position moves as it should exactly when the clipped step fits an int |
| StreamBuffer.CommitTurns | Dashboard/Dependencies/boost_asio/asio/basic_streambuf.hpp:235-236 | a step of 2^31 bytes moves the put position as far back |
| StreamBuffer.BasicStreambuf.Consume | Dashboard/Dependencies/boost_asio/asio/basic_streambuf.hpp:247-254 | removes the first bytes of the input sequence, all of them at most, whenever the clipped step fits an int and the sum of addresses does not wrap |
| StreamBuffer.ConsumedExactly | Dashboard/Dependencies/boost_asio/asio/basic_streambuf.hpp:251-253 | on 64-bit addresses it removes what it should exactly when the sum does not wrap and the step fits an int, or the low half of n happens to be the size |
| StreamBuffer.ConsumeWraps | Dashboard/Dependencies/boost_asio/asio/basic_streambuf.hpp:251-253 | for n = 2^64 - 1 the get position moves one byte back |
| StreamBuffer.BasicStreambuf.Underflow | Dashboard/Dependencies/boost_asio/asio/basic_streambuf.hpp:263-274 | the next byte, or eof exactly when there is none |
| StreamBuffer.BasicStreambuf.Overflow | Dashboard/Dependencies/boost_asio/asio/basic_streambuf.hpp:283-306 | appends one byte; a full put area grows to 128 bytes, or to what the limit leaves, or to what compaction frees; throws exactly when size() == max_size() |
| StreamBuffer.PutMakesRoom | Dashboard/Dependencies/boost_asio/asio/basic_streambuf.hpp:283-306 | the put area that a put into a full one leaves |
| StreamBuffer.Replay | Dashboard/Dependencies/boost_asio/asio/basic_streambuf.hpp:131-346 | every run of prepare, fill, commit, consume, peek and put, in any order, does what the abstract put area and queue do, stays within the limit, and throws exactly when one of its calls does not fit |
| StreamBuffer.BytesConserved | Dashboard/Dependencies/boost_asio/asio/basic_streambuf.hpp:131-346 | over every run, what was there then what was added is what was removed then what is left |
| StreamBuffer.TransferAppends | Dashboard/Dependencies/boost_asio/asio/basic_streambuf.hpp:214-238 | a prepare, fill, commit appends the committed bytes, whatever peeks and consumes come between |
| EndToEnd.FramesArrive | Firmware/src/Network/Connection.cpp:48-52 | however the wire is cut into reads, the dashboard sees the sent frames and nothing is left over |
| EndToEnd.ReadingsArrive | Dashboard/Source/Server/DataProcessing/Parser.cpp:22-82 | every sent reading is parsed back to its tag and its values exactly when stof accepts its two decimals |
| EndToEnd.FragmentsGlue | Dashboard/Source/Server/Server.cpp:138-151 | what any number of link drops inside frames do to the first whole frame after them |
| EndToEnd.DropsHurtNext | Dashboard/Source/Server/Server.cpp:138-151 | over any list of connections, each whole frames and perhaps a fragment, and any cutting into reads: the messages are the whole frames in order, each with the fragments glued before it, and what the parser makes of each |
| EndToEnd.DropsGlueFew | Dashboard/Source/Server/Server.cpp:138-151 | no more whole frames are glued to fragments than links were dropped inside a frame |
| EndToEnd.HistoryArrives | Firmware/src/Network/NetworkTask.cpp:29-66 | from boot, the history the dashboard gets is the sent part of the ledger, in write order, and every frame holds the reading meant |
| EndToEnd.RunFirmware | Firmware/src/Network/NetworkTask.cpp:29-66 | the Dafny classes, composed from first boot, put exactly the booked frames on the wire and leave exactly the booked queue in the files |
| EndToEnd.Serve | Dashboard/Source/Server/Server.cpp:80-162 | the server class fed any chunks of a stream pushes a connection and the stream's messages |

## Left out

- LittleFS, WiFi, sockets, serial ports, FreeRTOS and NTP: files are byte sequences, the link and the files' opening are a world asked at each moment, ticks and times are natural numbers passed in.
- A write the medium accepts only in part, and flash that is full.
- A stale open handle beside a second writer: handles see current contents.
- Server.Server.Stop: its steps fall between handlers, not inside them; the source calls it from another thread without synchronisation on `m_Running` and `m_Socket`.
- A successful read completion that runs after its socket was dropped: excluded by the stated assumption.
- StreamBuffer.BasicStreambuf.Reserve: promises nothing about the bytes after the length error, which may come after the move.
- StreamBuffer.BasicStreambuf.Commit: the state after a step that does not fit an `int` is followed as a position alone, in `StreamBuffer.CommittedExactly`.
- StreamBuffer.BasicStreambuf.Consume: requires that the sum of addresses does not wrap; where it wraps, the position alone is followed, in `StreamBuffer.ConsumedExactly`.
- StreamBuffer.Replay: a caller that commits bytes it did not write gets unspecified bytes; such calls are not proper.
- RunningAvg.RingAverage.constructor: excludes `Size` = 2^32 - 1, where `m_Count + 1` wraps; that array does not fit a 32-bit address space. Size 0 divides by zero in the source.
- RunningAvg.RealMean: exact arithmetic; how far `float` rounding drifts from it is not modelled.
- SerialConfig.Config.ReadSerialAndParse: ends at the first store outside a destination; what the source then overwrites is not modelled.
- SerialConfig.ReadLine: the stream is finite, and running dry stands for waiting.
- Parser.ParseFrame: `std::stof` is a parameter, and `unsigned long` is 64 bits wide.
- `Parser::ParseFileRow`, `GraphDataProcessor`, `Backend`, `Display`, `main`, the range, date and locale helpers: input, output or easy.
- `CircularBuffer::Newest`: unused, and it reads the slot after the newest.
- `CVQueue::front`, `back`, `size`, `empty`: references that escape the lock, or easy.
- The rest of the vendored asio: wrappers over services that are not shown.
