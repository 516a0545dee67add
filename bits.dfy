/**
 * Bit-level building blocks of the SHT11 driver: the two pins of the
 * AVR direction register DDRD that emulate open-drain lines, and the
 * most-significant-bit-first order in which bytes travel on the wire.
 */
module Bits {

  /** Port D direction bit of the clock line: `1 << DDD2`. */
  const SckBit: bv8 := 0x04
  /** Port D direction bit of the data line: `1 << DDD3`. */
  const DataBit: bv8 := 0x08
  /** The direction bits of port D other than the clock and data pins. */
  const OtherPins: bv8 := 0xF3

  /**
   * An `unsigned char` that the driver only compares and returns, never
   * combines bit by bit: a pin reading, an error code, an acknowledge flag.
   */
  newtype Byte = x: int | 0 <= x < 0x100

  /** `PIND & (1 << PIND3)` when the data line is high. */
  const DataHigh: Byte := 0x08

  /**
   * A pin whose direction bit is set is an output at level 0, so its line
   * is driven low; a cleared bit makes it an input and the pull-up (or the
   * sensor) decides the level.
   */
  predicate IsDriven(ddr: bv8, bit: bv8)
  {
    ddr & bit != 0
  }

  /**
   * The direction register DDRD with the clock and data pins driven or
   * released as given and the other six pins taken from `others`.
   */
  function Register(others: bv8, sckDriven: bool, dataDriven: bool): (ddr: bv8)
    ensures IsDriven(ddr, SckBit) == sckDriven && IsDriven(ddr, DataBit) == dataDriven
    ensures ddr & OtherPins == others & OtherPins
  {
    (others & OtherPins) | (if sckDriven then SckBit else 0) | (if dataDriven then DataBit else 0)
  }

  /** Every value of DDRD is a register of that form. */
  lemma RegisterOfAny(ddr: bv8)
    ensures Register(ddr, IsDriven(ddr, SckBit), IsDriven(ddr, DataBit)) == ddr
  {
  }

  /**
   * The four line macros on the register: SCK_LO sets bit DDD2, SCK_HI
   * clears it, DATA_LO sets bit DDD3, DATA_HI clears it, and none of them
   * touches another bit.
   */
  lemma LineMacros(others: bv8, sckDriven: bool, dataDriven: bool)
    ensures Register(others, true, dataDriven) == Register(others, sckDriven, dataDriven) | SckBit
    ensures Register(others, false, dataDriven) == Register(others, sckDriven, dataDriven) & !SckBit
    ensures Register(others, sckDriven, true) == Register(others, sckDriven, dataDriven) | DataBit
    ensures Register(others, sckDriven, false) == Register(others, sckDriven, dataDriven) & !DataBit
    ensures SckBit == 1 << 2 && DataBit == 1 << 3
  {
  }

  /**
   * The mask `i` of the shift loops when it selects the k-th bit on the
   * wire, k = 0 being the most significant bit: 0x80 >> k.
   */
  function Mask(k: nat): (m: bv8)
    requires k < 8
  {
    0x80 >> k
  }

  /**
   * One pass of the shift loops: the mask 0x80 >> n is non-zero and, halved,
   * becomes the next mask, 0 once all eight bits are done. The first clause
   * also restates, for the loop's `byte & i` test, that this mask selects
   * wire bit n (the definition of BitsOf).
   */
  lemma MaskStep(b: bv8, n: nat)
    requires n < 8
    ensures Mask(n) != 0 && (b & Mask(n) != 0) == BitsOf(b)[n]
    ensures Mask(n) / 2 == if n + 1 < 8 then Mask(n + 1) else 0
  {
    MaskHalves(n);
  }

  lemma MaskHalves(n: nat)
    requires n < 8
    ensures Mask(n) != 0
    ensures Mask(n) / 2 == if n + 1 < 8 then Mask(n + 1) else 0
  {
    if n == 0 { assert Mask(0) == 0x80 && Mask(1) == 0x40; }
    else if n == 1 { assert Mask(1) == 0x40 && Mask(2) == 0x20; }
    else if n == 2 { assert Mask(2) == 0x20 && Mask(3) == 0x10; }
    else if n == 3 { assert Mask(3) == 0x10 && Mask(4) == 0x08; }
    else if n == 4 { assert Mask(4) == 0x08 && Mask(5) == 0x04; }
    else if n == 5 { assert Mask(5) == 0x04 && Mask(6) == 0x02; }
    else if n == 6 { assert Mask(6) == 0x02 && Mask(7) == 0x01; }
    else { assert Mask(7) == 0x01; }
  }

  /** The k-th bit of `b` in wire order, that is bit 7-k. */
  predicate WireBit(b: bv8, k: nat)
    requires k < 8
  {
    b & Mask(k) != 0
  }

  /** The eight bits of `b` in the order they are clocked, most significant first. */
  function BitsOf(b: bv8): (bits: seq<bool>)
    ensures |bits| == 8
    ensures forall k: nat :: k < 8 ==> bits[k] == WireBit(b, k)
  {
    seq(8, k requires 0 <= k < 8 => WireBit(b, k))
  }

  /**
   * The byte assembled by `ret |= i` from the first |bits| samples, bit k of
   * the sequence landing on mask 0x80 >> k.
   */
  function ByteOf(bits: seq<bool>): bv8
    requires |bits| <= 8
  {
    if bits == [] then 0
    else ByteOf(bits[..|bits| - 1]) | (if bits[|bits| - 1] then Mask(|bits| - 1) else 0)
  }

  lemma WireBitOfOr(x: bv8, y: bv8, k: nat)
    requires k < 8
    ensures WireBit(x | y, k) == (WireBit(x, k) || WireBit(y, k))
  {
  }

  lemma WireBitOfMask(j: nat, k: nat)
    requires j < 8 && k < 8
    ensures WireBit(Mask(j), k) == (j == k)
  {
  }

  /** Bit k of the assembled byte is sample k, and the bits not yet sampled are clear. */
  lemma {:induction false} ByteOfWireBits(bits: seq<bool>, k: nat)
    requires |bits| <= 8 && k < 8
    ensures WireBit(ByteOf(bits), k) == (k < |bits| && bits[k])
  {
    if bits != [] {
      var n := |bits| - 1;
      ByteOfWireBits(bits[..n], k);
      WireBitOfOr(ByteOf(bits[..n]), if bits[n] then Mask(n) else 0, k);
      WireBitOfMask(n, k);
    }
  }

  /** Unpacking an assembled byte gives back the eight samples. */
  lemma BitsOfByteOf(bits: seq<bool>)
    requires |bits| == 8
    ensures BitsOf(ByteOf(bits)) == bits
  {
    forall k: nat | k < 8 ensures BitsOf(ByteOf(bits))[k] == bits[k] {
      ByteOfWireBits(bits, k);
    }
  }

  /** Two bytes with the same wire bits are equal. */
  lemma BitsOfInjective(x: bv8, y: bv8)
    requires BitsOf(x) == BitsOf(y)
    ensures x == y
  {
    assert Mask(0) == 0x80 && Mask(1) == 0x40 && Mask(2) == 0x20 && Mask(3) == 0x10;
    assert Mask(4) == 0x08 && Mask(5) == 0x04 && Mask(6) == 0x02 && Mask(7) == 0x01;
    assert BitsOf(x)[0] == BitsOf(y)[0] && BitsOf(x)[1] == BitsOf(y)[1];
    assert BitsOf(x)[2] == BitsOf(y)[2] && BitsOf(x)[3] == BitsOf(y)[3];
    assert BitsOf(x)[4] == BitsOf(y)[4] && BitsOf(x)[5] == BitsOf(y)[5];
    assert BitsOf(x)[6] == BitsOf(y)[6] && BitsOf(x)[7] == BitsOf(y)[7];
    SameMaskedBits(x, y);
  }

  lemma SameMaskedBits(x: bv8, y: bv8)
    requires (x & 0x80 != 0) == (y & 0x80 != 0) && (x & 0x40 != 0) == (y & 0x40 != 0)
    requires (x & 0x20 != 0) == (y & 0x20 != 0) && (x & 0x10 != 0) == (y & 0x10 != 0)
    requires (x & 0x08 != 0) == (y & 0x08 != 0) && (x & 0x04 != 0) == (y & 0x04 != 0)
    requires (x & 0x02 != 0) == (y & 0x02 != 0) && (x & 0x01 != 0) == (y & 0x01 != 0)
    ensures x == y
  {
  }

  /** Shifting a byte out MSB first and in again MSB first reproduces it. */
  lemma ByteOfBitsOf(b: bv8)
    ensures ByteOf(BitsOf(b)) == b
  {
    BitsOfByteOf(BitsOf(b));
    BitsOfInjective(ByteOf(BitsOf(b)), b);
  }

  /**
   * The raw count `temp = sht11_recv(1) << 8; temp |= sht11_recv(1);` in a
   * 16-bit `unsigned int`.
   */
  function Combine(hi: bv8, lo: bv8): (count: bv16)
    ensures (count >> 8) as bv8 == hi && (count & 0xFF) as bv8 == lo
  {
    ((hi as bv16) << 8) | (lo as bv16)
  }

  /** The count is the high byte times 256 plus the low byte. */
  lemma CombineValue(hi: bv8, lo: bv8)
    ensures Combine(hi, lo) as int == hi as int * 256 + lo as int
  {
    ShiftOrIsSum(hi as bv16, lo as bv16);
    SumValue(hi as bv16, lo as bv16);
  }

  lemma ShiftOrIsSum(h: bv16, l: bv16)
    requires h < 256 && l < 256
    ensures (h << 8) | l == h * 256 + l
  {
  }

  lemma SumValue(h: bv16, l: bv16)
    requires h < 256 && l < 256
    ensures (h * 256 + l) as int == h as int * 256 + l as int
  {
  }
}
