/** Machine words of the firmware: unsigned 8- and 32-bit values and the
    little-endian byte layout a `struct` of `uint32_t` has on the ESP32. */
module Words {
  const WORD_SPAN: nat := 0x1_0000_0000

  type Byte = b: nat | b < 256
  type Word = w: nat | w < WORD_SPAN

  datatype Option<+T> = None | Some(value: T)

  function Min(a: int, b: int): int {
    if a <= b then a else b
  }

  function Max(a: int, b: int): int {
    if a <= b then b else a
  }

  /** `uint32_t` addition and subtraction wrap around. */
  function WrapAdd(a: Word, b: Word): Word {
    (a + b) % WORD_SPAN
  }

  function WrapSub(a: Word, b: Word): Word {
    (a - b + WORD_SPAN) % WORD_SPAN
  }

  function ToBytes(w: Word): (bs: seq<Byte>)
    ensures |bs| == 4
  {
    [w % 256, w / 256 % 256, w / 65536 % 256, w / 16777216]
  }

  function FromBytes(bs: seq<Byte>): Word
    requires |bs| == 4
  {
    bs[0] as int + 256 * bs[1] as int + 65536 * bs[2] as int + 16777216 * bs[3] as int
  }

  lemma WordRoundTrip(w: Word)
    ensures FromBytes(ToBytes(w)) == w
  {
    assert w / 65536 == w / 256 / 256;
    assert w / 16777216 == w / 65536 / 256;
  }

  /** Little-endian: each byte counts 256 times the one before it. */
  lemma LittleEndian(w: Word)
    ensures var bs := ToBytes(w); w == bs[0] as int + 256 * (bs[1] as int + 256 * (bs[2] as int + 256 * bs[3] as int))
  {
    assert w / 65536 == w / 256 / 256;
    assert w / 16777216 == w / 65536 / 256;
  }

  lemma BytesRoundTrip(bs: seq<Byte>)
    requires |bs| == 4
    ensures ToBytes(FromBytes(bs)) == bs
  {
    var w: int, w3: int := FromBytes(bs), bs[3];
    var w2 := bs[2] as int + 256 * w3;
    var w1 := bs[1] as int + 256 * w2;
    assert w == bs[0] as int + 256 * w1;
    assert w / 256 == w1 && w1 / 256 == w2 && w2 / 256 == w3;
    assert w / 65536 == w2 && w / 16777216 == w3;
  }

  /** Subtracting two residues gives the residue of the difference: the reason
      tick counters and running sums survive wrap-around. */
  lemma WrapSubMod(a: nat, b: nat)
    requires b <= a
    ensures WrapSub(a % WORD_SPAN, b % WORD_SPAN) == (a - b) % WORD_SPAN
  {
    var p, q := a / WORD_SPAN, b / WORD_SPAN;
    assert a == p * WORD_SPAN + a % WORD_SPAN;
    assert b == q * WORD_SPAN + b % WORD_SPAN;
    assert a - b == (p - q) * WORD_SPAN + (a % WORD_SPAN - b % WORD_SPAN);
  }
}
