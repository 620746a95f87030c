/** `asio::basic_streambuf`: a growable byte queue over one array, with get and
    put positions, in-place compaction and a hard size limit. */
module StreamBuffer {
  import opened Words

  const BUFFER_DELTA: nat := 128
  /** `gbump` and `pbump` take an `int`. */
  const INT_MAX: nat := 0x7FFF_FFFF

  const ADDRESS_SPAN: nat := 0x1_0000_0000_0000_0000

  /** `static_cast<int>`: the low half of the word, with its sign. */
  function IntOf(n: nat): int {
    var low := n % WORD_SPAN;
    if low <= INT_MAX then low else low - WORD_SPAN
  }

  /** Where `consume(n)` leaves the get position, computed on addresses as the code
      does: the array lies at `base`, sums of addresses wrap. */
  function Consumed(base: nat, g: nat, p: nat, n: nat): int
    requires g <= p
  {
    g + IntOf(if (base + g + n) % ADDRESS_SPAN > base + p then p - g else n)
  }

  /** `consume` removes what it should exactly when the sum of addresses does not
      wrap and the step fits an `int`; after a wrap only if the low half of `n`
      happens to be the size. */
  lemma ConsumedExactly(base: nat, g: nat, p: nat, n: nat)
    requires g <= p && base + p < ADDRESS_SPAN && n < ADDRESS_SPAN
    ensures Consumed(base, g, p, n) == g + Min(n, p - g) <==>
            if base + g + n < ADDRESS_SPAN then Min(n, p - g) <= INT_MAX else IntOf(n) == p - g
  {
    if base + g + n < ADDRESS_SPAN {
      SmallInt(Min(n, p - g));
    } else {
      assert (base + g + n) % ADDRESS_SPAN == base + g + n - ADDRESS_SPAN;
    }
  }

  lemma SmallInt(n: nat)
    requires n < ADDRESS_SPAN
    ensures IntOf(n) == n <==> n <= INT_MAX
  {
  }

  /** Where `commit(n)` leaves the put position. */
  function Committed(p: nat, e: nat, n: nat): int
    requires p <= e
  {
    p + IntOf(Min(n, e - p))
  }

  /** `commit` moves what it should exactly when the clipped step fits an `int`. */
  lemma CommittedExactly(p: nat, e: nat, n: nat)
    requires p <= e < ADDRESS_SPAN
    ensures Committed(p, e, n) == p + Min(n, e - p) <==> Min(n, e - p) <= INT_MAX
  {
    SmallInt(Min(n, e - p));
  }

  /** Committing 2^31 bytes moves the put position as far back. */
  lemma CommitTurns(p: nat, e: nat)
    requires p + 0x8000_0000 <= e
    ensures Committed(p, e, 0x8000_0000) == p - 0x8000_0000
  {
  }

  /** Asking for 2^64 - 1 bytes moves the get position one byte back. */
  lemma ConsumeWraps(base: nat, g: nat, p: nat)
    requires g <= p && 0 < base + g && base + p < ADDRESS_SPAN
    ensures Consumed(base, g, p, ADDRESS_SPAN - 1) == g - 1
  {
    assert (base + g + (ADDRESS_SPAN - 1)) % ADDRESS_SPAN == base + g - 1;
  }

  /** Marker for `traits_type::eof()`. */
  datatype IntType = Eof | Char(c: Byte)

  /** Writing `bytes` at `p` leaves what is before alone. */
  lemma Filled(before: seq<Byte>, after: seq<Byte>, g: nat, p: nat, e: nat, bytes: seq<Byte>)
    requires g <= p <= e <= |before| == |after| && |bytes| <= e - p
    requires forall k | 0 <= k < |after| :: after[k] == if p <= k < p + |bytes| then bytes[k - p] else before[k]
    ensures after[g..p] == before[g..p]
    ensures after[p..e] == bytes + before[p..e][|bytes|..]
  {
  }

  /** Moving the boundary between two neighbouring stretches from `p` to `q`. */
  lemma Boundary(cells: seq<Byte>, g: nat, p: nat, q: nat, e: nat)
    requires g <= p <= q <= e <= |cells|
    ensures cells[g..q] == cells[g..p] + cells[p..e][..q - p]
    ensures cells[q..e] == cells[p..e][q - p..]
  {
  }

  /** The put area `overflow` appends into. */
  function Grown(gap: nat, space: nat, size: nat, limit: nat): nat {
    if space > 0 then space
    else if size < limit && limit - size < BUFFER_DELTA then Max(gap, limit - size) else Max(gap, BUFFER_DELTA)
  }

  class BasicStreambuf {
    const max_size: nat
    var buffer: array<Byte>
    var gptr: nat
    var egptr: nat
    var pptr: nat
    var epptr: nat

    ghost predicate Valid()
      reads this
    {
      gptr <= egptr <= pptr <= epptr <= max_size && buffer.Length == Max(epptr, 1)
    }

    /** The input sequence: bytes written and not yet consumed. */
    function Contents(): (bs: seq<Byte>)
      requires Valid()
      reads this, buffer
      ensures |bs| == Size()
    {
      buffer[gptr..pptr]
    }

    function Size(): nat
      requires Valid()
      reads this
    {
      pptr - gptr
    }

    /** The bytes of the put area, whatever they hold. */
    function PutArea(): (bs: seq<Byte>)
      requires Valid()
      reads this, buffer
      ensures |bs| == Space()
    {
      buffer[pptr..epptr]
    }

    function Space(): nat
      requires Valid()
      reads this
    {
      epptr - pptr
    }

    constructor (maximum_size: nat)
      ensures Valid() && fresh(buffer) && max_size == maximum_size && Contents() == []
      ensures gptr == egptr == 0 && Space() == Min(maximum_size, 128)
    {
      max_size := maximum_size;
      var pend := Min(maximum_size, BUFFER_DELTA);
      buffer := new Byte[Max(pend, 1)];
      gptr, egptr, pptr, epptr := 0, 0, 0, pend;
    }

    /** `std::memmove(&buffer_[0], &buffer_[0] + from, n)`, for overlapping
        ranges moved towards the front. */
    method MoveToFront(from: nat, n: nat)
      requires from + n <= buffer.Length
      modifies buffer
      ensures buffer[..n] == old(buffer[from..from + n])
      ensures buffer[n..] == old(buffer[n..])
    {
      ghost var before := buffer[..];
      for i := 0 to n
        invariant buffer[..i] == before[from..from + i]
        invariant buffer[i..] == before[i..]
      {
        assert buffer[from + i] == before[from + i] by {
          assert buffer[i..][from] == before[i..][from];
        }
        buffer[i] := buffer[from + i];
      }
    }

    /** `buffer_.resize(n)` */
    method Resize(n: nat)
      requires n >= buffer.Length
      modifies this`buffer
      ensures fresh(buffer) && buffer.Length == n
      ensures buffer[..old(buffer).Length] == old(buffer[..])
    {
      var smaller, bigger := buffer, new Byte[n];
      for i := 0 to smaller.Length
        invariant bigger[..i] == smaller[..i]
      {
        bigger[i] := smaller[i];
      }
      buffer := bigger;
    }

    /** `reserve`: the length error is `false`; after it nothing is promised about
        the bytes. The put area is kept if it is large enough; otherwise it is what
        compaction frees, or just what was asked for. */
    method Reserve(n: nat) returns (ok: bool)
      requires Valid()
      modifies this, buffer
      ensures ok <==> old(Size()) + n <= max_size
      ensures ok ==> Valid() && Contents() == old(Contents())
      ensures n <= old(Space()) ==> gptr == old(gptr) && egptr == old(egptr) && PutArea() == old(PutArea())
      ensures ok && n > old(Space()) ==> gptr == 0 && egptr == pptr && Space() == Max(old(gptr + Space()), n)
      ensures buffer == old(buffer) || fresh(buffer)
    {
      if n <= epptr - pptr {
        return true;
      }
      ok := Enlarge(n);
    }

    /** The second half of `reserve`: compact, and grow if that is not enough. */
    method Enlarge(n: nat) returns (ok: bool)
      requires Valid() && n > Space()
      modifies this, buffer
      ensures ok <==> old(Size()) + n <= max_size
      ensures ok ==> Valid() && Contents() == old(Contents())
      ensures ok ==> gptr == 0 && egptr == pptr && Space() == Max(old(gptr + Space()), n)
      ensures buffer == old(buffer) || fresh(buffer)
    {
      ghost var contents := Contents();
      var pnext, pend := pptr, epptr;
      if gptr > 0 {
        pnext := pnext - gptr;
        MoveToFront(gptr, pnext);
      }
      assert buffer[..pnext] == contents;
      if n > pend - pnext {
        if n <= max_size && pnext <= max_size - n {
          pend := pnext + n;
          ghost var cells := buffer[..];
          Resize(Max(pend, 1));
          assert buffer[..pnext] == cells[..pnext];
        } else {
          return false;
        }
      }
      gptr, egptr, pptr, epptr := 0, pnext, pnext, pend;
      return true;
    }

    /** `prepare` throws exactly when the limit would be passed. */
    method Prepare(n: nat) returns (ok: bool)
      requires Valid()
      modifies this, buffer
      ensures ok <==> old(Size()) + n <= max_size
      ensures ok ==> Valid() && Contents() == old(Contents()) && n <= Space()
      ensures n <= old(Space()) ==> gptr == old(gptr) && egptr == old(egptr) && PutArea() == old(PutArea())
      ensures ok && n > old(Space()) ==> gptr == 0 && egptr == pptr && Space() == Max(old(gptr + Space()), n)
      ensures buffer == old(buffer) || fresh(buffer)
    {
      ok := Reserve(n);
    }

    /** The caller writes into the prepared space. */
    method Fill(bytes: seq<Byte>)
      requires Valid() && |bytes| <= Space()
      modifies buffer
      ensures Valid() && Contents() == old(Contents())
      ensures PutArea() == bytes + old(PutArea())[|bytes|..]
    {
      ghost var before := buffer[..];
      for i := 0 to |bytes|
        invariant forall k | 0 <= k < buffer.Length ::
                    buffer[k] == if pptr <= k < pptr + i then bytes[k - pptr] else before[k]
      {
        buffer[pptr + i] := bytes[i];
      }
      Filled(before, buffer[..], gptr, pptr, epptr, bytes);
    }

    /** `commit`: more than the put area commits all of it. */
    method Commit(n: nat)
      requires Valid() && Min(n, Space()) <= INT_MAX
      modifies this`pptr, this`egptr
      ensures Valid() && buffer == old(buffer) && egptr == pptr
      ensures var k := Min(n, old(Space()));
              Contents() == old(Contents()) + old(PutArea())[..k] && PutArea() == old(PutArea())[k..]
    {
      var k := Min(n, epptr - pptr);
      Boundary(buffer[..], gptr, pptr, pptr + k, epptr);
      pptr := pptr + k;
      egptr := pptr;
    }

    /** `consume`: more than the input sequence consumes all of it. The array lies at
        `base`; the positions compare as the addresses do unless the sum wraps, which
        counts within an `int` never do (`ConsumedExactly`). */
    method Consume(n: nat, ghost base: nat)
      requires Valid() && Min(n, Size()) <= INT_MAX
      requires n <= INT_MAX || base + gptr + n < ADDRESS_SPAN
      modifies this`gptr, this`egptr
      ensures Valid() && gptr == old(gptr) + Min(n, old(Size())) && egptr == pptr
      ensures Contents() == old(Contents())[Min(n, old(Size()))..] && PutArea() == old(PutArea())
    {
      var k := n;
      if egptr < pptr {
        egptr := pptr;
      }
      if gptr + k > pptr {
        k := pptr - gptr;
      }
      gptr := gptr + k;
    }

    /** `underflow`: the next byte without taking it. */
    method Underflow() returns (r: IntType)
      requires Valid()
      modifies this`egptr
      ensures Valid() && Contents() == old(Contents()) && PutArea() == old(PutArea())
      ensures r == if Contents() == [] then Eof else Char(Contents()[0])
      ensures egptr == if Contents() != [] then pptr else old(egptr)
    {
      if gptr < pptr {
        egptr := pptr;
        return Char(buffer[gptr]);
      }
      return Eof;
    }

    /** `overflow`: append one byte, growing by the preferred step; `ok` is false
        for the length error. */
    method Overflow(c: IntType) returns (ok: bool)
      requires Valid()
      modifies this, buffer
      ensures ok <==> c.Eof? || old(Size()) < max_size
      ensures ok ==> Valid() && Contents() == old(Contents()) + (if c.Char? then [c.c] else [])
      ensures ok && c.Char? ==>
                && gptr == (if old(Space()) > 0 then old(gptr) else 0)
                && egptr == (if old(Space()) > 0 then old(egptr) else pptr - 1)
                && Space() + 1 == (if old(Space()) > 0 then old(Space())
                                   else Max(old(gptr), Min(128, max_size - old(Size()))))
                && (old(Space()) > 0 ==> PutArea() == old(PutArea())[1..])
      ensures ok && c.Eof? ==> gptr == old(gptr) && PutArea() == old(PutArea())
      ensures buffer == old(buffer) || fresh(buffer)
    {
      if c.Eof? {
        return true;
      }
      if pptr == epptr {
        ok := MakeRoom();
        if !ok {
          return false;
        }
      }
      Append(c.c);
      return true;
    }

    /** Enlarge a full put area by the preferred step. */
    method MakeRoom() returns (ok: bool)
      requires Valid() && Space() == 0
      modifies this, buffer
      ensures ok <==> old(Size()) < max_size
      ensures ok ==> Valid() && Contents() == old(Contents()) && gptr == 0 && egptr == pptr
      ensures ok ==> Space() == Max(old(gptr), Min(128, max_size - old(Size())))
      ensures buffer == old(buffer) || fresh(buffer)
    {
      var buffer_size := pptr - gptr;
      if buffer_size < max_size && max_size - buffer_size < BUFFER_DELTA {
        ok := Reserve(max_size - buffer_size);
      } else {
        ok := Reserve(BUFFER_DELTA);
      }
    }

    /** `*pptr() = c; pbump(1);` */
    method Append(c: Byte)
      requires Valid() && pptr < epptr
      modifies this`pptr, buffer
      ensures Valid() && Contents() == old(Contents()) + [c] && PutArea() == old(PutArea())[1..]
    {
      ghost var contents, area := Contents(), PutArea();
      buffer[pptr] := c;
      pptr := pptr + 1;
      assert buffer[gptr..pptr - 1] == contents && buffer[pptr..epptr] == area[1..];
    }
  }

  // ---------------------------------------------------------------- runs

  /** Calls on one buffer; `Fill` is the caller writing into the prepared space. */
  datatype Op =
    | Prepare(n: nat)
    | Fill(bytes: seq<Byte>)
    | Commit(n: nat)
    | Take(n: nat)
    | Peek
    | Put(c: Byte)

  /** The abstract buffer: the queued bytes, the bytes known to stand at the start of
      the put area, the size of the put area, and the bytes consumed since the last
      compaction. */
  datatype Pipe = Pipe(queue: seq<Byte>, known: seq<Byte>, space: nat, gap: nat)

  /** What the caller owes: to write inside the put area, to commit only bytes that
      were written, and to use steps that fit an `int`. */
  predicate Proper(p: Pipe, op: Op) {
    match op
    case Fill(bytes) => |bytes| <= p.space
    case Commit(n) => Min(n, p.space) <= |p.known| && Min(n, p.space) <= INT_MAX
    case Take(n) => n <= INT_MAX
    case _ => true
  }

  /** The call does not throw. */
  predicate Fits(p: Pipe, op: Op, limit: nat) {
    match op
    case Prepare(n) => |p.queue| + n <= limit
    case Put(_) => |p.queue| < limit
    case _ => true
  }

  function Prepared(p: Pipe, n: nat): Pipe {
    if n <= p.space then p else Pipe(p.queue, [], Max(p.gap + p.space, n), 0)
  }

  /** What a call does to the pipe. */
  function Flow(p: Pipe, op: Op, limit: nat): Pipe {
    match op
    case Prepare(n) => Prepared(p, n)
    case Fill(bytes) => p.(known := bytes + (if |bytes| < |p.known| then p.known[|bytes|..] else []))
    case Commit(n) =>
      var k := Min(Min(n, p.space), |p.known|);
      Pipe(p.queue + p.known[..k], p.known[k..], p.space - Min(n, p.space), p.gap)
    case Take(n) => p.(queue := p.queue[Min(n, |p.queue|)..], gap := p.gap + Min(n, |p.queue|))
    case Peek => p
    case Put(c) =>
      Pipe(p.queue + [c], if |p.known| > 0 && p.space > 0 then p.known[1..] else [],
           Grown(p.gap, p.space, |p.queue|, limit) - 1, if p.space > 0 then p.gap else 0)
  }

  /** A put into a full put area makes room for 128 bytes, or for all the limit leaves,
      or keeps what compaction frees, whichever is most; one byte of it is then taken. */
  lemma PutMakesRoom(p: Pipe, c: Byte, limit: nat)
    requires |p.queue| < limit
    ensures Flow(p, Put(c), limit).space + 1 ==
            if p.space > 0 then p.space else Max(p.gap, Min(128, limit - |p.queue|))
  {
  }

  function FlowRun(p: Pipe, ops: seq<Op>, limit: nat): Pipe
    decreases |ops|
  {
    if ops == [] then p else FlowRun(Flow(p, ops[0], limit), ops[1..], limit)
  }

  function Peeked(p: Pipe, op: Op): seq<IntType> {
    if op == Peek then [if p.queue == [] then Eof else Char(p.queue[0])] else []
  }

  /** What the calls return: the bytes peeked at. */
  function Peeks(p: Pipe, ops: seq<Op>, limit: nat): seq<IntType>
    decreases |ops|
  {
    if ops == [] then [] else Peeked(p, ops[0]) + Peeks(Flow(p, ops[0], limit), ops[1..], limit)
  }

  predicate AllFit(p: Pipe, ops: seq<Op>, limit: nat)
    decreases |ops|
  {
    ops == [] || (Fits(p, ops[0], limit) && AllFit(Flow(p, ops[0], limit), ops[1..], limit))
  }

  /** Every call is proper when it is made; a run ends with the first that throws. */
  predicate AllProper(p: Pipe, ops: seq<Op>, limit: nat)
    decreases |ops|
  {
    ops == [] || (Proper(p, ops[0]) && (Fits(p, ops[0], limit) ==> AllProper(Flow(p, ops[0], limit), ops[1..], limit)))
  }

  /** The buffer is in the state the pipe says. */
  ghost predicate Holds(sb: BasicStreambuf, p: Pipe)
    reads sb, sb.buffer
  {
    && sb.Valid() && sb.Contents() == p.queue && sb.Space() == p.space && sb.gptr == p.gap
    && p.known <= sb.PutArea()
  }

  method PerformPrepare(sb: BasicStreambuf, ghost p: Pipe, n: nat) returns (ok: bool)
    requires Holds(sb, p)
    modifies sb, sb.buffer
    ensures sb.buffer == old(sb.buffer) || fresh(sb.buffer)
    ensures ok <==> Fits(p, Prepare(n), sb.max_size)
    ensures ok ==> Holds(sb, Flow(p, Prepare(n), sb.max_size))
  {
    ok := sb.Prepare(n);
  }

  method PerformFill(sb: BasicStreambuf, ghost p: Pipe, bytes: seq<Byte>)
    requires Holds(sb, p) && Proper(p, Fill(bytes))
    modifies sb.buffer
    ensures Holds(sb, Flow(p, Fill(bytes), sb.max_size))
  {
    ghost var area := sb.PutArea();
    sb.Fill(bytes);
    FilledKnown(area, p.known, bytes);
  }

  lemma FilledKnown(area: seq<Byte>, known: seq<Byte>, bytes: seq<Byte>)
    requires known <= area && |bytes| <= |area|
    ensures bytes + (if |bytes| < |known| then known[|bytes|..] else []) <= bytes + area[|bytes|..]
  {
  }

  method PerformCommit(sb: BasicStreambuf, ghost p: Pipe, n: nat)
    requires Holds(sb, p) && Proper(p, Commit(n))
    modifies sb
    ensures sb.buffer == old(sb.buffer) && Holds(sb, Flow(p, Commit(n), sb.max_size))
  {
    ghost var area, k := sb.PutArea(), Min(n, p.space);
    CommittedKnown(area, p.known, k);
    assert Flow(p, Commit(n), sb.max_size) == Pipe(p.queue + area[..k], p.known[k..], p.space - k, p.gap);
    sb.Commit(n);
  }

  lemma CommittedKnown(area: seq<Byte>, known: seq<Byte>, k: nat)
    requires known <= area && k <= |known|
    ensures area[..k] == known[..k] && known[k..] <= area[k..]
  {
  }

  method PerformPut(sb: BasicStreambuf, ghost p: Pipe, c: Byte) returns (ok: bool)
    requires Holds(sb, p)
    modifies sb, sb.buffer
    ensures sb.buffer == old(sb.buffer) || fresh(sb.buffer)
    ensures ok <==> Fits(p, Put(c), sb.max_size)
    ensures ok ==> Holds(sb, Flow(p, Put(c), sb.max_size))
  {
    ghost var area := sb.PutArea();
    ok := sb.Overflow(Char(c));
    if |p.known| > 0 {
      CommittedKnown(area, p.known, 1);
    }
  }

  method PerformTake(sb: BasicStreambuf, ghost p: Pipe, n: nat)
    requires Holds(sb, p) && Proper(p, Take(n))
    modifies sb
    ensures sb.buffer == old(sb.buffer) && Holds(sb, Flow(p, Take(n), sb.max_size))
  {
    sb.Consume(n, 0);
  }

  method PerformPeek(sb: BasicStreambuf, ghost p: Pipe) returns (peeked: seq<IntType>)
    requires Holds(sb, p)
    modifies sb
    ensures sb.buffer == old(sb.buffer) && Holds(sb, p) && peeked == Peeked(p, Peek)
  {
    var r := sb.Underflow();
    peeked := [r];
  }

  /** One call on the class. */
  method Perform(sb: BasicStreambuf, ghost p: Pipe, op: Op) returns (ok: bool, peeked: seq<IntType>)
    requires Holds(sb, p) && Proper(p, op)
    modifies sb, sb.buffer
    ensures sb.buffer == old(sb.buffer) || fresh(sb.buffer)
    ensures ok <==> Fits(p, op, sb.max_size)
    ensures ok ==> Holds(sb, Flow(p, op, sb.max_size)) && peeked == Peeked(p, op)
  {
    ok, peeked := true, [];
    match op {
      case Prepare(n) => ok := PerformPrepare(sb, p, n);
      case Fill(bytes) => PerformFill(sb, p, bytes);
      case Commit(n) => PerformCommit(sb, p, n);
      case Take(n) => PerformTake(sb, p, n);
      case Peek => peeked := PerformPeek(sb, p);
      case Put(c) => ok := PerformPut(sb, p, c);
    }
  }

  method RunFrom(sb: BasicStreambuf, ghost p: Pipe, ops: seq<Op>) returns (ok: bool, peeked: seq<IntType>)
    requires Holds(sb, p) && AllProper(p, ops, sb.max_size)
    modifies sb, sb.buffer
    ensures ok <==> AllFit(p, ops, sb.max_size)
    ensures ok ==> Holds(sb, FlowRun(p, ops, sb.max_size)) && peeked == Peeks(p, ops, sb.max_size)
    decreases |ops|
  {
    if ops == [] {
      return true, [];
    }
    var first, rest;
    ok, first := Perform(sb, p, ops[0]);
    if ok {
      ok, rest := RunFrom(sb, Flow(p, ops[0], sb.max_size), ops[1..]);
      peeked := first + rest;
    } else {
      peeked := first;
    }
  }

  function Empty(limit: nat): Pipe {
    Pipe([], [], Min(limit, BUFFER_DELTA), 0)
  }

  /** A stream buffer of any limit behaves as the pipe over every run, its calls in
      any order: it throws exactly when one of its calls does not fit, and its size
      never passes the limit. */
  method Replay(limit: nat, ops: seq<Op>) returns (ok: bool, left: seq<Byte>, peeked: seq<IntType>)
    requires AllProper(Empty(limit), ops, limit)
    ensures ok <==> AllFit(Empty(limit), ops, limit)
    ensures ok ==> left == FlowRun(Empty(limit), ops, limit).queue && |left| <= limit
    ensures ok ==> peeked == Peeks(Empty(limit), ops, limit)
  {
    var sb := new BasicStreambuf(limit);
    ok, peeked := RunFrom(sb, Empty(limit), ops);
    left := if ok then sb.Contents() else [];
  }

  /** The bytes a call adds, and those it removes. */
  function Added(p: Pipe, op: Op): seq<Byte> {
    match op
    case Commit(n) => p.known[..Min(Min(n, p.space), |p.known|)]
    case Put(c) => [c]
    case _ => []
  }

  function Removed(p: Pipe, op: Op): seq<Byte> {
    if op.Take? then p.queue[..Min(op.n, |p.queue|)] else []
  }

  function AllAdded(p: Pipe, ops: seq<Op>, limit: nat): seq<Byte>
    decreases |ops|
  {
    if ops == [] then [] else Added(p, ops[0]) + AllAdded(Flow(p, ops[0], limit), ops[1..], limit)
  }

  function AllRemoved(p: Pipe, ops: seq<Op>, limit: nat): seq<Byte>
    decreases |ops|
  {
    if ops == [] then [] else Removed(p, ops[0]) + AllRemoved(Flow(p, ops[0], limit), ops[1..], limit)
  }

  /** First in, first out, nothing lost: over every run what was there and what was
      added is what was removed and what is left. */
  lemma {:induction false} BytesConserved(p: Pipe, ops: seq<Op>, limit: nat)
    ensures p.queue + AllAdded(p, ops, limit) == AllRemoved(p, ops, limit) + FlowRun(p, ops, limit).queue
    decreases |ops|
  {
    if ops == [] {
      assert p.queue + [] == [] + p.queue;
    } else {
      var next := Flow(p, ops[0], limit);
      BytesConserved(next, ops[1..], limit);
      StepConserves(p, ops[0], limit);
      Chain(p.queue, Added(p, ops[0]), Removed(p, ops[0]), next.queue, AllAdded(next, ops[1..], limit),
            AllRemoved(next, ops[1..], limit), FlowRun(next, ops[1..], limit).queue);
    }
  }

  lemma StepConserves(p: Pipe, op: Op, limit: nat)
    ensures p.queue + Added(p, op) == Removed(p, op) + Flow(p, op, limit).queue
  {
    assert p.queue + [] == p.queue && [] + p.queue == p.queue;
  }

  lemma Chain(q: seq<Byte>, a: seq<Byte>, r: seq<Byte>, q': seq<Byte>, a': seq<Byte>, r': seq<Byte>, q'': seq<Byte>)
    requires q + a == r + q' && q' + a' == r' + q''
    ensures q + (a + a') == (r + r') + q''
  {
    assert q + (a + a') == (q + a) + a' == r + (q' + a') == (r + r') + q'';
  }

  predicate Quiet(ops: seq<Op>) {
    forall i | 0 <= i < |ops| :: ops[i].Take? || ops[i].Peek?
  }

  lemma {:induction false} AddedConcat(p: Pipe, a: seq<Op>, b: seq<Op>, limit: nat)
    ensures FlowRun(p, a + b, limit) == FlowRun(FlowRun(p, a, limit), b, limit)
    ensures AllAdded(p, a + b, limit) == AllAdded(p, a, limit) + AllAdded(FlowRun(p, a, limit), b, limit)
    decreases |a|
  {
    if a == [] {
      assert a + b == b;
      assert [] + AllAdded(p, b, limit) == AllAdded(p, b, limit);
    } else {
      var next := Flow(p, a[0], limit);
      AddedConcat(next, a[1..], b, limit);
      assert (a + b)[0] == a[0] && (a + b)[1..] == a[1..] + b;
      Associate(Added(p, a[0]), AllAdded(next, a[1..], limit), AllAdded(FlowRun(p, a, limit), b, limit));
    }
  }

  lemma Associate(a: seq<Byte>, b: seq<Byte>, c: seq<Byte>)
    ensures a + (b + c) == a + b + c
  {
  }

  /** Peeks and takes add nothing and leave the put area alone. */
  lemma {:induction false} QuietKeeps(p: Pipe, ops: seq<Op>, limit: nat)
    requires Quiet(ops)
    ensures AllAdded(p, ops, limit) == []
    ensures FlowRun(p, ops, limit).known == p.known && FlowRun(p, ops, limit).space == p.space
    decreases |ops|
  {
    if ops != [] {
      assert Quiet(ops[1..]);
      QuietKeeps(Flow(p, ops[0], limit), ops[1..], limit);
      assert [] + AllAdded(Flow(p, ops[0], limit), ops[1..], limit) == [];
    }
  }

  /** One call, then peeks and takes. */
  lemma ThenQuiet(p: Pipe, op: Op, quiet: seq<Op>, limit: nat)
    requires Quiet(quiet)
    ensures AllAdded(p, [op] + quiet, limit) == Added(p, op)
    ensures var r := FlowRun(p, [op] + quiet, limit);
            r.known == Flow(p, op, limit).known && r.space == Flow(p, op, limit).space
  {
    QuietKeeps(Flow(p, op, limit), quiet, limit);
    assert ([op] + quiet)[1..] == quiet;
    assert Added(p, op) + [] == Added(p, op);
  }

  /** A transfer appends the committed bytes, whatever peeks and takes come between
      its three calls. */
  lemma TransferAppends(p: Pipe, bytes: seq<Byte>, k: nat, quiet1: seq<Op>, quiet2: seq<Op>, limit: nat)
    requires k <= |bytes| && Quiet(quiet1) && Quiet(quiet2)
    ensures var ops := ([Prepare(|bytes|)] + quiet1) + (([Fill(bytes)] + quiet2) + [Commit(k)]);
            AllAdded(p, ops, limit) == bytes[..k]
  {
    var a, b := [Prepare(|bytes|)] + quiet1, [Fill(bytes)] + quiet2;
    var p1 := FlowRun(p, a, limit);
    var p2 := FlowRun(p1, b, limit);
    ThenQuiet(p, Prepare(|bytes|), quiet1, limit);
    ThenQuiet(p1, Fill(bytes), quiet2, limit);
    assert p2.space >= |bytes| && bytes <= p2.known;
    ThenQuiet(p2, Commit(k), [], limit);
    assert [Commit(k)] + [] == [Commit(k)];
    assert AllAdded(p2, [Commit(k)], limit) == p2.known[..k] == bytes[..k];
    AddedConcat(p1, b, [Commit(k)], limit);
    AddedConcat(p, a, b + [Commit(k)], limit);
  }
}
