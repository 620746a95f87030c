/** The two running averages over the last `Size` values: the firmware's over an
    array ring, the dashboard's over a list, for any arithmetic. */
module RunningAvg {
  import opened Words

  // ---------------------------------------------------------------- the plain one

  function Sum(w: seq<Word>): nat {
    if w == [] then 0 else w[0] + Sum(w[1..])
  }

  /** The last `size` values. */
  function LastValues<T>(values: seq<T>, size: nat): seq<T> {
    if |values| <= size then values else values[|values| - size..]
  }

  /** One more value: the oldest leaves when the window is full. */
  function Slide<T>(w: seq<T>, size: nat, value: T): seq<T>
    requires size > 0
  {
    (if |w| < size then w else w[1..]) + [value]
  }

  // ---------------------------------------------------------------- any arithmetic

  /** The operations a helper uses, as its template's type has them: nothing is
      assumed of them, so rounding arithmetic is one too. `over` divides by a count. */
  datatype Arith<!T> = Arith(zero: T, isZero: T -> bool, add: (T, T) -> T, sub: (T, T) -> T, over: (T, nat) -> T)

  /** What a push does to the stored sum. */
  function Slid<T>(ar: Arith<T>, sum: T, w: seq<T>, size: nat, value: T): T
    requires size > 0
  {
    if |w| < size then ar.add(sum, value) else ar.add(ar.sub(sum, w[0]), value)
  }

  /** The stored sum after these values. */
  function RunningSum<T>(ar: Arith<T>, values: seq<T>, size: nat): T
    requires size > 0
  {
    if values == [] then ar.zero
    else
      var before := values[..|values| - 1];
      Slid(ar, RunningSum(ar, before, size), LastValues(before, size), size, values[|values| - 1])
  }

  lemma RunningSumStep<T>(ar: Arith<T>, values: seq<T>, size: nat, value: T)
    requires size > 0
    ensures RunningSum(ar, values + [value], size) ==
            Slid(ar, RunningSum(ar, values, size), LastValues(values, size), size, value)
    ensures LastValues(values + [value], size) == Slide(LastValues(values, size), size, value)
  {
    assert (values + [value])[..|values|] == values;
    SlideIsLastValues(values, size, value);
  }

  /** What both `GetAvg` functions answer. */
  function AverageOf<T>(ar: Arith<T>, sum: T, n: nat): T {
    if ar.isZero(sum) || n == 0 then ar.zero else ar.over(sum, n)
  }

  // ---------------------------------------------------------------- 32-bit words

  predicate IsZero(a: Word) {
    a == 0
  }

  function Over(a: Word, n: nat): Word {
    if n == 0 then 0 else a / n
  }

  const WORDS: Arith<Word> := Arith<Word>.Arith(0, IsZero, WrapAdd, WrapSub, Over)

  /** The answer for a window of words. */
  function Average(w: seq<Word>): Word {
    var sum := Sum(w) % WORD_SPAN;
    if sum == 0 || |w| == 0 then 0 else sum / |w|
  }

  lemma SlideIsLastValues<T>(values: seq<T>, size: nat, value: T)
    requires size > 0
    ensures Slide(LastValues(values, size), size, value) == LastValues(values + [value], size)
  {
  }

  lemma {:induction false} SumAppend(w: seq<Word>, value: Word)
    ensures Sum(w + [value]) == Sum(w) + value
  {
    if w == [] {
      assert (w + [value])[1..] == [];
    } else {
      assert (w + [value])[1..] == w[1..] + [value];
      SumAppend(w[1..], value);
    }
  }

  /** Adding before or after the reduction modulo 2^32 is the same. */
  lemma WrapAddMod(a: nat, b: Word)
    ensures WrapAdd(a % WORD_SPAN, b) == (a + b) % WORD_SPAN
  {
    assert a == a / WORD_SPAN * WORD_SPAN + a % WORD_SPAN;
    assert a + b == a / WORD_SPAN * WORD_SPAN + (a % WORD_SPAN + b);
  }

  lemma SlideTotal(w: seq<Word>, size: nat, value: Word)
    requires size > 0 && |w| <= size
    ensures Sum(Slide(w, size, value)) == (if |w| < size then Sum(w) else Sum(w) - w[0]) + value
  {
    SumAppend(if |w| < size then w else w[1..], value);
  }

  /** The running sum survives every wrap: taking the oldest out and putting the
      newest in gives the sum of the new window, modulo 2^32. */
  lemma SlideSum(w: seq<Word>, size: nat, value: Word)
    requires size > 0 && |w| <= size
    ensures Slid(WORDS, Sum(w) % WORD_SPAN, w, size, value) == Sum(Slide(w, size, value)) % WORD_SPAN
  {
    SlideTotal(w, size, value);
    SlideSumFor(w, size, value, Sum(w), Sum(Slide(w, size, value)));
  }

  lemma SlideSumFor(w: seq<Word>, size: nat, value: Word, before: nat, after: nat)
    requires size > 0 && |w| <= size && (|w| == size ==> w[0] <= before)
    requires after == (if |w| < size then before else before - w[0]) + value
    ensures Slid(WORDS, before % WORD_SPAN, w, size, value) == after % WORD_SPAN
  {
    if |w| < size {
      WrapAddMod(before, value);
    } else {
      WrapReplace(before, w[0], value);
    }
  }

  lemma WrapReplace(total: nat, leaving: Word, value: Word)
    requires leaving <= total
    ensures WrapAdd(WrapSub(total % WORD_SPAN, leaving), value) == (total - leaving + value) % WORD_SPAN
  {
    WrapSubMod(total, leaving);
    assert leaving % WORD_SPAN == leaving;
    WrapAddMod(total - leaving, value);
  }

  lemma SplitLast<T>(values: seq<T>)
    requires values != []
    ensures values == values[..|values| - 1] + [values[|values| - 1]]
  {
  }

  /** Over every sequence of pushes the stored word is the sum of the window, modulo
      2^32. */
  lemma {:induction false} WordSum(values: seq<Word>, size: nat)
    requires size > 0
    ensures RunningSum(WORDS, values, size) == Sum(LastValues(values, size)) % WORD_SPAN
  {
    if values != [] {
      var before, value := values[..|values| - 1], values[|values| - 1];
      SplitLast(values);
      WordSum(before, size);
      WordSumStep(before, size, value);
    }
  }

  lemma WordSumStep(values: seq<Word>, size: nat, value: Word)
    requires size > 0 && RunningSum(WORDS, values, size) == Sum(LastValues(values, size)) % WORD_SPAN
    ensures RunningSum(WORDS, values + [value], size) == Sum(LastValues(values + [value], size)) % WORD_SPAN
  {
    SlideSum(LastValues(values, size), size, value);
    RunningSumStep(WORDS, values, size, value);
  }

  lemma {:induction false} SumBounds(w: seq<Word>, low: nat, high: nat)
    requires forall i | 0 <= i < |w| :: low <= w[i] <= high
    ensures |w| * low <= Sum(w) <= |w| * high
  {
    if w != [] {
      SumBounds(w[1..], low, high);
      OneMoreTimes(|w| - 1, low);
      OneMoreTimes(|w| - 1, high);
    }
  }

  lemma OneMoreTimes(n: nat, x: nat)
    ensures (n + 1) * x == n * x + x
  {
  }

  lemma ProductMonotone(n: nat, a: int, b: int)
    ensures a <= b ==> n * a <= n * b
  {
  }

  lemma QuotientBetween(sum: nat, n: nat, low: nat, high: nat)
    requires n > 0 && n * low <= sum <= n * high
    ensures low <= sum / n <= high
  {
    var q := sum / n;
    assert sum == n * q + sum % n;
    ProductMonotone(n, q + 1, low);
    ProductMonotone(n, high + 1, q);
  }

  lemma QuotientDrops(a: nat, b: nat, n: nat)
    requires n > 0 && a + n <= b
    ensures a / n < b / n
  {
    assert a == n * (a / n) + a % n && b == n * (b / n) + b % n;
    ProductMonotone(n, b / n, a / n);
  }

  /** The average is the floored mean exactly when the sum of the window fits in
      32 bits. */
  lemma FlooredMean(w: seq<Word>)
    requires 0 < |w| < WORD_SPAN
    ensures Average(w) == Sum(w) / |w| <==> Sum(w) < WORD_SPAN
  {
    var sum := Sum(w);
    if sum < WORD_SPAN {
      FloorWhenFits(w);
    } else {
      assert sum % WORD_SPAN <= sum - WORD_SPAN;
      QuotientDrops(sum % WORD_SPAN, sum, |w|);
      if sum % WORD_SPAN == 0 {
        assert 0 / |w| == 0;
      }
    }
  }

  /** Two values whose sum wraps to zero: the answer is 0, the mean 2^31. */
  lemma AverageWraps()
    ensures var w := [0xFFFF_FFFF, 1]; Average(w) == 0 && Sum(w) / |w| == 0x8000_0000
  {
    var w: seq<Word> := [0xFFFF_FFFF, 1];
    assert w[1..] == [1] && w[1..][1..] == [];
    assert Sum(w) == WORD_SPAN;
  }

  lemma FloorWhenFits(w: seq<Word>)
    requires w != [] && Sum(w) < WORD_SPAN
    ensures Average(w) == Sum(w) / |w|
  {
    var sum := Sum(w);
    assert sum % WORD_SPAN == sum;
    assert sum == 0 ==> sum / |w| == 0;
  }

  /** Whenever `|w|` times the largest value fits, the average lies between the
      smallest and the largest. */
  lemma AverageBetween(w: seq<Word>, low: Word, high: Word)
    requires w != [] && (forall i | 0 <= i < |w| :: low <= w[i] <= high)
    requires |w| * high < WORD_SPAN
    ensures Average(w) == Sum(w) / |w| && low <= Average(w) <= high
  {
    SumBounds(w, low, high);
    QuotientBetween(Sum(w), |w|, low, high);
    FloorWhenFits(w);
  }

  /** The CO2 average: 16-bit values in a window of at most five always fit. */
  lemma SmallWindowsFit(w: seq<Word>)
    requires 0 < |w| <= 5 && forall i | 0 <= i < |w| :: w[i] < 0x1_0000
    ensures Average(w) == Sum(w) / |w|
  {
    SumBounds(w, 0, 0xFFFF);
    assert |w| * 0xFFFF <= 5 * 0xFFFF;
    FlooredMean(w);
  }

  // ---------------------------------------------------------------- reals

  /** The `float` helpers with rounding left out. */
  const REALS: Arith<real> := Arith(0.0, RealIsZero, RealAdd, RealSub, RealOver)

  predicate RealIsZero(a: real) {
    a == 0.0
  }

  function RealAdd(a: real, b: real): real {
    a + b
  }

  function RealSub(a: real, b: real): real {
    a - b
  }

  function RealOver(a: real, n: nat): real {
    if n == 0 then 0.0 else a / n as real
  }

  function RealSum(w: seq<real>): real {
    if w == [] then 0.0 else w[0] + RealSum(w[1..])
  }

  lemma {:induction false} RealSumAppend(w: seq<real>, value: real)
    ensures RealSum(w + [value]) == RealSum(w) + value
  {
    if w == [] {
      assert (w + [value])[1..] == [];
    } else {
      assert (w + [value])[1..] == w[1..] + [value];
      RealSumAppend(w[1..], value);
    }
  }

  lemma SlideRealSum(w: seq<real>, size: nat, value: real)
    requires size > 0
    ensures Slid(REALS, RealSum(w), w, size, value) == RealSum(Slide(w, size, value))
  {
    RealSumAppend(if |w| < size then w else w[1..], value);
  }

  /** Without rounding the stored sum is the sum of the window, so the answer is its
      mean. */
  lemma RealMean(values: seq<real>, size: nat)
    requires size > 0
    ensures var w, sum := LastValues(values, size), RunningSum(REALS, values, size);
            sum == RealSum(w) && (values != [] ==> AverageOf(REALS, sum, |w|) == RealSum(w) / |w| as real)
  {
    RealTotal(values, size);
    if values != [] {
      RealQuotient(RunningSum(REALS, values, size), |LastValues(values, size)|);
    }
  }

  lemma RealQuotient(sum: real, n: nat)
    requires n > 0
    ensures AverageOf(REALS, sum, n) == sum / n as real
  {
    if sum == 0.0 {
      assert 0.0 / n as real == 0.0;
    }
  }

  lemma {:induction false} RealTotal(values: seq<real>, size: nat)
    requires size > 0
    ensures RunningSum(REALS, values, size) == RealSum(LastValues(values, size))
  {
    if values != [] {
      var before, value := values[..|values| - 1], values[|values| - 1];
      SplitLast(values);
      RealTotal(before, size);
      SlideRealSum(LastValues(before, size), size, value);
      RunningSumStep(REALS, before, size, value);
    }
  }

  // ---------------------------------------------------------------- firmware

  /** The slot `k` places after `tail` on a ring of `size` slots. */
  function RingSlot(tail: nat, size: nat, k: nat): nat
    requires tail < size && k <= size
  {
    if tail + k < size then tail + k else tail + k - size
  }

  function RingValues<T>(cells: seq<T>, tail: nat, count: nat): (w: seq<T>)
    requires tail < |cells| && count <= |cells|
    ensures |w| == count
    ensures forall k | 0 <= k < count :: w[k] == cells[RingSlot(tail, |cells|, k)]
  {
    seq(count, k requires 0 <= k < count => cells[RingSlot(tail, |cells|, k)])
  }

  class CircularBuffer<T(0)> {
    const size: Word
    const m_Buffer: array<T>
    var m_Head: Word
    var m_Tail: Word
    var m_Count: Word

    predicate Valid()
      reads this
    {
      && 0 < size && m_Buffer.Length == size
      && m_Head < size && m_Tail < size && m_Count <= size
      && m_Head == RingSlot(m_Tail, size, m_Count)
    }

    /** The values held, oldest first. */
    function Window(): (w: seq<T>)
      requires Valid()
      reads this, m_Buffer
      ensures |w| == m_Count
    {
      var cells := m_Buffer[..];
      RingValues(cells, m_Tail, m_Count)
    }

    constructor (size: Word)
      requires size > 0
      ensures Valid() && this.size == size && Window() == [] && fresh(m_Buffer)
    {
      this.size := size;
      m_Buffer := new T[size];
      m_Head, m_Tail, m_Count := 0, 0, 0;
    }

    method Push(value: T)
      requires Valid()
      modifies this, m_Buffer
      ensures Valid() && Window() == Slide(old(Window()), size, value)
    {
      m_Buffer[m_Head] := value;
      NextSlot(m_Tail, size);
      NextSlot(m_Head, size);
      if m_Count < size {
        m_Count := m_Count + 1;
      } else {
        m_Tail := (m_Tail + 1) % size;
      }
      m_Head := (m_Head + 1) % size;
    }

    function Oldest(): (value: T)
      requires Valid()
      reads this, m_Buffer
      ensures Window() != [] ==> value == Window()[0]
    {
      m_Buffer[m_Tail]
    }
  }

  lemma SmallMod(x: nat, n: nat)
    requires x < n
    ensures x % n == x
  {
  }

  lemma SelfMod(n: nat)
    requires n > 0
    ensures n % n == 0
  {
  }

  lemma NextSlot(i: nat, size: nat)
    requires i < size
    ensures (i + 1) % size == if i + 1 == size then 0 else i + 1
  {
    if i + 1 == size {
      SelfMod(size);
    } else {
      SmallMod(i + 1, size);
    }
  }

  /** The firmware's `RunningAvgHelper`. A `Size` of 2^32 - 1 would make
      `m_Count + 1` wrap; no 32-bit machine can hold that array. */
  class RingAverage<T(0)> {
    const ar: Arith<T>
    const m_Buffer: CircularBuffer<T>
    const size: Word
    var m_Sum: T
    var m_Count: Word
    ghost var pushed: seq<T>

    /** The ring holds the last values pushed, and the sum is theirs. */
    ghost predicate Valid()
      reads this, m_Buffer, m_Buffer.m_Buffer
    {
      && m_Buffer.Valid() && m_Buffer.size == size && size + 1 < WORD_SPAN
      && m_Buffer.Window() == LastValues(pushed, size) && m_Count == |m_Buffer.Window()|
      && m_Sum == RunningSum(ar, pushed, size)
    }

    constructor (ar: Arith<T>, size: Word)
      requires 0 < size && size + 1 < WORD_SPAN
      ensures Valid() && this.ar == ar && this.size == size && pushed == []
      ensures fresh(m_Buffer) && fresh(m_Buffer.m_Buffer)
    {
      this.ar, this.size := ar, size;
      m_Buffer := new CircularBuffer<T>(size);
      m_Sum, m_Count, pushed := ar.zero, 0, [];
    }

    method Push(value: T)
      requires Valid()
      modifies this, m_Buffer, m_Buffer.m_Buffer
      ensures Valid() && pushed == old(pushed) + [value]
      ensures m_Buffer.Window() == Slide(old(m_Buffer.Window()), size, value)
      ensures m_Sum == if |old(m_Buffer.Window())| < size then ar.add(old(m_Sum), value)
                       else ar.add(ar.sub(old(m_Sum), old(m_Buffer.Window()[0])), value)
    {
      RunningSumStep(ar, pushed, size, value);
      Account(value);
      m_Buffer.Push(value);
      m_Count := m_Count + 1;
      pushed := pushed + [value];
    }

    /** The first half of `Push`: the sum of the window to come. */
    method Account(value: T)
      requires Valid()
      modifies this`m_Sum, this`m_Count
      ensures m_Sum == Slid(ar, old(m_Sum), m_Buffer.Window(), size, value)
      ensures m_Count as int == |Slide(m_Buffer.Window(), size, value)| - 1
    {
      assert WrapAdd(m_Count, 1) as int == |m_Buffer.Window()| + 1;
      if WrapAdd(m_Count, 1) > size {
        m_Sum := ar.sub(m_Sum, m_Buffer.Oldest());
        m_Count := m_Count - 1;
      }
      m_Sum := ar.add(m_Sum, value);
    }

    method GetAvg() returns (average: T)
      requires Valid()
      ensures average == AverageAfter(ar, pushed, size)
      ensures var n := |m_Buffer.Window()|;
              average == if ar.isZero(m_Sum) || n == 0 then ar.zero else ar.over(m_Sum, n)
    {
      if ar.isZero(m_Sum) || m_Count == 0 {
        return ar.zero;
      }
      return ar.over(m_Sum, m_Count);
    }
  }

  // ---------------------------------------------------------------- dashboard

  /** The dashboard's `RunningAvgHelper`. */
  class ListAverage<T> {
    const ar: Arith<T>
    const maxValues: nat
    var m_Values: seq<T>
    var m_Sum: T
    ghost var pushed: seq<T>

    /** The list holds the last values pushed, and the sum is theirs. */
    ghost predicate Valid()
      reads this
    {
      0 < maxValues && m_Values == LastValues(pushed, maxValues) && m_Sum == RunningSum(ar, pushed, maxValues)
    }

    constructor (ar: Arith<T>, maxValues: nat)
      requires maxValues > 0
      ensures Valid() && this.ar == ar && this.maxValues == maxValues && pushed == []
    {
      this.ar, this.maxValues := ar, maxValues;
      m_Values, m_Sum, pushed := [], ar.zero, [];
    }

    method Push(value: T)
      requires Valid()
      modifies this
      ensures Valid() && pushed == old(pushed) + [value]
      ensures m_Values == Slide(old(m_Values), maxValues, value)
      ensures m_Sum == if |old(m_Values)| < maxValues then ar.add(old(m_Sum), value)
                       else ar.add(ar.sub(old(m_Sum), old(m_Values)[0]), value)
    {
      RunningSumStep(ar, pushed, maxValues, value);
      if |m_Values| + 1 > maxValues {
        var frontVal := m_Values[0];
        m_Values := m_Values[1..];
        m_Sum := ar.sub(m_Sum, frontVal);
        m_Sum := ar.add(m_Sum, value);
        m_Values := m_Values + [value];
      } else {
        m_Values := m_Values + [value];
        m_Sum := ar.add(m_Sum, value);
      }
      pushed := pushed + [value];
    }

    method GetAvg() returns (average: T)
      requires Valid()
      ensures average == AverageAfter(ar, pushed, maxValues)
      ensures average == if ar.isZero(m_Sum) || m_Values == [] then ar.zero else ar.over(m_Sum, |m_Values|)
    {
      if ar.isZero(m_Sum) || |m_Values| == 0 {
        return ar.zero;
      }
      return ar.over(m_Sum, |m_Values|);
    }
  }

  // ---------------------------------------------------------------- together

  /** The answer after these values. */
  function AverageAfter<T>(ar: Arith<T>, values: seq<T>, size: nat): T
    requires size > 0
  {
    AverageOf(ar, RunningSum(ar, values, size), |LastValues(values, size)|)
  }

  /** The answers after every push. */
  function Averages<T>(ar: Arith<T>, values: seq<T>, size: nat): (r: seq<T>)
    requires size > 0
    ensures |r| == |values|
    ensures forall i | 0 <= i < |values| :: r[i] == AverageAfter(ar, values[..i + 1], size)
  {
    seq(|values|, i requires 0 <= i < |values| => AverageAfter(ar, values[..i + 1], size))
  }

  lemma AveragesStep<T>(ar: Arith<T>, values: seq<T>, size: nat, i: nat)
    requires size > 0 && i < |values|
    ensures values[..i + 1] == values[..i] + [values[i]]
    ensures Averages(ar, values, size)[..i + 1] ==
            Averages(ar, values, size)[..i] + [AverageAfter(ar, values[..i + 1], size)]
  {
    OneMore(values, i);
    OneMore(Averages(ar, values, size), i);
  }

  lemma OneMore<T>(s: seq<T>, i: nat)
    requires i < |s|
    ensures s[..i + 1] == s[..i] + [s[i]]
  {
  }

  method PushAndAsk<T(0)>(helper: RingAverage<T>, value: T) returns (average: T)
    requires helper.Valid()
    modifies helper, helper.m_Buffer, helper.m_Buffer.m_Buffer
    ensures helper.Valid() && helper.pushed == old(helper.pushed) + [value]
    ensures average == AverageAfter(helper.ar, helper.pushed, helper.size)
  {
    helper.Push(value);
    average := helper.GetAvg();
  }

  method RingAverages<T(0)>(ar: Arith<T>, size: Word, values: seq<T>) returns (averages: seq<T>)
    requires 0 < size && size + 1 < WORD_SPAN
    ensures averages == Averages(ar, values, size)
  {
    var helper := new RingAverage<T>(ar, size);
    averages := [];
    for i := 0 to |values|
      invariant fresh(helper) && fresh(helper.m_Buffer) && fresh(helper.m_Buffer.m_Buffer)
      invariant helper.Valid() && helper.ar == ar && helper.size == size && helper.pushed == values[..i]
      invariant averages == Averages(ar, values, size)[..i]
    {
      AveragesStep(ar, values, size, i);
      var average := PushAndAsk(helper, values[i]);
      averages := averages + [average];
    }
    assert Averages(ar, values, size)[..|values|] == Averages(ar, values, size);
  }

  method ListAverages<T>(ar: Arith<T>, size: nat, values: seq<T>) returns (averages: seq<T>)
    requires 0 < size
    ensures averages == Averages(ar, values, size)
  {
    var helper := new ListAverage<T>(ar, size);
    averages := [];
    for i := 0 to |values|
      invariant fresh(helper) && helper.Valid() && helper.ar == ar && helper.maxValues == size
      invariant helper.pushed == values[..i]
      invariant averages == Averages(ar, values, size)[..i]
    {
      AveragesStep(ar, values, size, i);
      helper.Push(values[i]);
      var average := helper.GetAvg();
      averages := averages + [average];
    }
    assert Averages(ar, values, size)[..|values|] == Averages(ar, values, size);
  }

  /** The two helpers fed the same values cannot be told apart, whatever the
      arithmetic: they apply the same operations in the same order. */
  method Compare<T(0)>(ar: Arith<T>, size: Word, values: seq<T>) returns (ring: seq<T>, list: seq<T>)
    requires 0 < size && size + 1 < WORD_SPAN
    ensures ring == list == Averages(ar, values, size)
  {
    ring := RingAverages(ar, size, values);
    list := ListAverages(ar, size, values);
  }

  /** In 32-bit words the answers are those of the plain windows. */
  lemma WordAverages(values: seq<Word>, size: nat, i: nat)
    requires size > 0 && i < |values|
    ensures Averages(WORDS, values, size)[i] == Average(LastValues(values[..i + 1], size))
  {
    WordSum(values[..i + 1], size);
  }
}
