/** The reference definition of the two checksums of the driver SDK: a reflected
  * shift register that consumes a message one bit at a time, least significant bit
  * of every byte first (section C.2 of RFC 1662, section 8 of RFC 1952).
  *
  * The 16-bit register is a 32-bit one whose upper half stays zero, so both
  * checksums share one theory with the polynomial as a parameter.
  */
module BitSerialCrc {
  const POLY16: bv32 := 0x8408
  const POLY32: bv32 := 0xEDB88320

  /** One clock of the register: shift right, and fold the polynomial in if a one fell out. */
  function Shift(poly: bv32, c: bv32): bv32 {
    if c & 1 == 1 then (c >> 1) ^ poly else c >> 1
  }

  /** Exclusive-or under a name, so that a proof by equations can keep it closed. */
  function Xor(a: bv32, b: bv32): bv32 {
    a ^ b
  }

  function Wide(b: bv8): bv32 {
    b as bv32
  }

  function Bit(b: bool): bv32 {
    if b then 1 else 0
  }

  /** Feeds the bits of a message into the register, in order. */
  function FeedBits(poly: bv32, c: bv32, bits: seq<bool>): bv32
    decreases |bits|
  {
    if bits == [] then c else FeedBits(poly, Shift(poly, Xor(c, Bit(bits[0]))), bits[1..])
  }

  /** The bits of a byte, least significant first. */
  function BitsOf(b: bv8): (bits: seq<bool>)
    ensures |bits| == 8
  {
    [b & 1 != 0, b & 2 != 0, b & 4 != 0, b & 8 != 0, b & 16 != 0, b & 32 != 0, b & 64 != 0, b & 128 != 0]
  }

  function BitsOfBytes(bytes: seq<bv8>): (bits: seq<bool>)
    ensures |bits| == 8 * |bytes|
  {
    if bytes == [] then [] else BitsOf(bytes[0]) + BitsOfBytes(bytes[1..])
  }

  /** The register after the whole byte string. */
  function Crc(poly: bv32, c: bv32, bytes: seq<bv8>): bv32 {
    FeedBits(poly, c, BitsOfBytes(bytes))
  }

  // ---------- A message can be fed in pieces ----------

  lemma {:induction false} FeedConcat(poly: bv32, c: bv32, a: seq<bool>, b: seq<bool>)
    ensures FeedBits(poly, c, a + b) == FeedBits(poly, FeedBits(poly, c, a), b)
    decreases |a|
  {
    hide Shift;
    if a == [] {
      assert a + b == b;
    } else {
      assert (a + b)[1..] == a[1..] + b;
      FeedConcat(poly, Shift(poly, Xor(c, Bit(a[0]))), a[1..], b);
    }
  }

  lemma {:induction false} BitsConcat(a: seq<bv8>, b: seq<bv8>)
    ensures BitsOfBytes(a + b) == BitsOfBytes(a) + BitsOfBytes(b)
  {
    if a == [] {
      assert a + b == b;
    } else {
      assert (a + b)[1..] == a[1..] + b;
      BitsConcat(a[1..], b);
    }
  }

  /** Running over `b` from the register left by `a` is running over `a` followed by `b`. */
  lemma CrcConcat(poly: bv32, c: bv32, a: seq<bv8>, b: seq<bv8>)
    ensures Crc(poly, c, a + b) == Crc(poly, Crc(poly, c, a), b)
  {
    BitsConcat(a, b);
    FeedConcat(poly, c, BitsOfBytes(a), BitsOfBytes(b));
  }

  // ---------- Two, four and eight clocks ----------

  function Shift2(poly: bv32, c: bv32): bv32 {
    Shift(poly, Shift(poly, c))
  }

  function Shift4(poly: bv32, c: bv32): bv32 {
    Shift2(poly, Shift2(poly, c))
  }

  function Shift8(poly: bv32, c: bv32): bv32 {
    Shift4(poly, Shift4(poly, c))
  }

  // ---------- The register is linear over exclusive-or ----------

  lemma LinearEvenEven(poly: bv32, a: bv32, b: bv32)
    requires a & 1 == 0 && b & 1 == 0
    ensures Shift(poly, a ^ b) == Shift(poly, a) ^ Shift(poly, b)
  {
  }

  lemma LinearEvenOdd(poly: bv32, a: bv32, b: bv32)
    requires a & 1 == 0 && b & 1 == 1
    ensures Shift(poly, a ^ b) == Shift(poly, a) ^ Shift(poly, b)
  {
  }

  lemma LinearOddEven(poly: bv32, a: bv32, b: bv32)
    requires a & 1 == 1 && b & 1 == 0
    ensures Shift(poly, a ^ b) == Shift(poly, a) ^ Shift(poly, b)
  {
  }

  lemma LinearOddOdd(poly: bv32, a: bv32, b: bv32)
    requires a & 1 == 1 && b & 1 == 1
    ensures Shift(poly, a ^ b) == Shift(poly, a) ^ Shift(poly, b)
  {
  }

  lemma XorIs(a: bv32, b: bv32)
    ensures Xor(a, b) == a ^ b
  {
  }

  lemma Parity(a: bv32)
    ensures a & 1 == 0 || a & 1 == 1
  {
  }

  lemma ShiftLinear(poly: bv32, a: bv32, b: bv32)
    ensures Shift(poly, Xor(a, b)) == Xor(Shift(poly, a), Shift(poly, b))
  {
    hide Xor, Shift;
    XorIs(a, b);
    XorIs(Shift(poly, a), Shift(poly, b));
    Parity(a);
    Parity(b);
    if a & 1 == 0 && b & 1 == 0 {
      LinearEvenEven(poly, a, b);
    } else if a & 1 == 0 {
      LinearEvenOdd(poly, a, b);
    } else if b & 1 == 0 {
      LinearOddEven(poly, a, b);
    } else {
      LinearOddOdd(poly, a, b);
    }
  }

  lemma Shift2Linear(poly: bv32, a: bv32, b: bv32)
    ensures Shift2(poly, Xor(a, b)) == Xor(Shift2(poly, a), Shift2(poly, b))
  {
    hide Xor, Shift;
    ShiftLinear(poly, a, b);
    ShiftLinear(poly, Shift(poly, a), Shift(poly, b));
  }

  lemma Shift4Linear(poly: bv32, a: bv32, b: bv32)
    ensures Shift4(poly, Xor(a, b)) == Xor(Shift4(poly, a), Shift4(poly, b))
  {
    hide Xor, Shift2;
    Shift2Linear(poly, a, b);
    Shift2Linear(poly, Shift2(poly, a), Shift2(poly, b));
  }

  lemma Shift8Linear(poly: bv32, a: bv32, b: bv32)
    ensures Shift8(poly, Xor(a, b)) == Xor(Shift8(poly, a), Shift8(poly, b))
  {
    hide Xor, Shift4;
    Shift4Linear(poly, a, b);
    Shift4Linear(poly, Shift4(poly, a), Shift4(poly, b));
  }

  // ---------- Bits above the clocked ones only move down ----------

  lemma ShiftHigh(poly: bv32, x: bv32)
    requires x & 1 == 0
    ensures Shift(poly, x) == x >> 1
  {
  }

  lemma Shift2High(poly: bv32, x: bv32)
    requires x & 3 == 0
    ensures Shift2(poly, x) == x >> 2
  {
    hide Shift;
    ShiftHigh(poly, x);
    ShiftHigh(poly, x >> 1);
  }

  lemma Shift4High(poly: bv32, x: bv32)
    requires x & 0xf == 0
    ensures Shift4(poly, x) == x >> 4
  {
    hide Shift2;
    Shift2High(poly, x);
    Shift2High(poly, x >> 2);
  }

  lemma Shift8High(poly: bv32, x: bv32)
    requires x & 0xff == 0
    ensures Shift8(poly, x) == x >> 8
  {
    hide Shift4;
    Shift4High(poly, x);
    Shift4High(poly, x >> 4);
  }

  /** The identity behind every byte table: only the low byte of what is folded in needs looking up. */
  lemma Peel(poly: bv32, c: bv32, d: bv32)
    ensures Shift8(poly, Xor(c, d)) == Xor(Shift8(poly, Xor(c, d & 0xff)), d >> 8)
  {
    hide Xor, Shift8;
    Split(c, d);
    Shift8Linear(poly, Xor(c, d & 0xff), d & 0xffffff00);
    Shift8High(poly, d & 0xffffff00);
  }

  lemma Split(c: bv32, d: bv32)
    ensures Xor(c, d) == Xor(Xor(c, d & 0xff), d & 0xffffff00)
    ensures (d & 0xffffff00) & 0xff == 0 && (d & 0xffffff00) >> 8 == d >> 8
  {
  }

  function Low(w: bv32): bv32 {
    w & 0xff
  }

  function Rest(w: bv32): bv32 {
    w >> 8
  }

  lemma ByteStep(poly: bv32, c: bv32)
    ensures Shift8(poly, c) == Xor(Rest(c), Shift8(poly, Low(c)))
  {
    hide Xor, Shift8;
    Peel(poly, 0, c);
    XorZero(c);
    XorZero(c & 0xff);
    XorCommutes(c >> 8, Shift8(poly, c & 0xff));
  }

  lemma XorZero(a: bv32)
    ensures Xor(0, a) == a && Xor(a, 0) == a
  {
  }

  lemma XorCommutes(a: bv32, b: bv32)
    ensures Xor(a, b) == Xor(b, a)
  {
  }

  lemma XorAssociates(a: bv32, b: bv32, c: bv32)
    ensures Xor(Xor(a, b), c) == Xor(a, Xor(b, c))
  {
  }

  /** Four bytes folded in together, taken apart into four independent lookups. */
  lemma Slice(poly: bv32, w: bv32)
    ensures Shift8(poly, Shift8(poly, Shift8(poly, Shift8(poly, w))))
         == Xor(Xor(Xor(Shift8(poly, Shift8(poly, Shift8(poly, Shift8(poly, Low(w))))),
                        Shift8(poly, Shift8(poly, Shift8(poly, Low(Rest(w)))))),
                    Shift8(poly, Shift8(poly, Low(Rest(Rest(w)))))),
                Shift8(poly, Rest(Rest(Rest(w)))))
  {
    hide Xor, Shift8, Low, Rest;
    var r1, r2, w3 := Rest(w), Rest(Rest(w)), Rest(Rest(Rest(w)));
    ByteStep(poly, w);
    ByteStep(poly, r1);
    ByteStep(poly, r2);
    var z0, z1, z2 := Shift8(poly, Low(w)), Shift8(poly, Low(r1)), Shift8(poly, Low(r2));
    var y0, y1 := Shift8(poly, z0), Shift8(poly, z1);
    Shift8Linear(poly, r1, z0);
    Shift8Linear(poly, Xor(r2, z1), y0);
    Shift8Linear(poly, r2, z1);
    Shift8Linear(poly, Xor(Xor(w3, z2), y1), Shift8(poly, y0));
    Shift8Linear(poly, Xor(w3, z2), y1);
    Shift8Linear(poly, w3, z2);
    XorReverse(Shift8(poly, w3), Shift8(poly, z2), Shift8(poly, y1), Shift8(poly, Shift8(poly, y0)));
  }

  lemma XorReverse(a: bv32, b: bv32, c: bv32, d: bv32)
    ensures Xor(Xor(Xor(a, b), c), d) == Xor(Xor(Xor(d, c), b), a)
  {
    hide Xor;
    XorCommutes(Xor(Xor(a, b), c), d);
    XorCommutes(Xor(a, b), c);
    XorCommutes(a, b);
    XorAssociates(d, c, Xor(b, a));
    XorAssociates(Xor(d, c), b, a);
  }

  // ---------- Feeding bits one at a time is one exclusive-or and then clocking ----------

  lemma FeedPair(poly: bv32, c: bv32, bits: seq<bool>, n: bv32)
    requires |bits| == 2 && n <= 3 && bits[0] == (n & 1 != 0) && bits[1] == (n & 2 != 0)
    ensures FeedBits(poly, c, bits) == Shift2(poly, Xor(c, n))
  {
    hide Xor, Shift;
    PairSplit(c, n);
    BitOfPair(n);
    ShiftLinear(poly, Xor(c, n & 1), n & 2);
    ShiftHigh(poly, n & 2);
    var c1 := Shift(poly, Xor(c, Bit(bits[0])));
    assert FeedBits(poly, c1, bits[1..]) == FeedBits(poly, Shift(poly, Xor(c1, Bit(bits[1]))), []);
  }

  lemma PairSplit(c: bv32, n: bv32)
    requires n <= 3
    ensures Xor(c, n) == Xor(Xor(c, n & 1), n & 2)
  {
  }

  lemma BitOfPair(n: bv32)
    requires n <= 3
    ensures n & 1 == Bit(n & 1 != 0)
    ensures (n & 2) & 1 == 0 && (n & 2) >> 1 == Bit(n & 2 != 0)
  {
  }

  predicate NibbleBits(n: bv32, bits: seq<bool>) {
    && n <= 0xf && |bits| == 4
    && bits[0] == (n & 1 != 0) && bits[1] == (n & 2 != 0) && bits[2] == (n & 4 != 0) && bits[3] == (n & 8 != 0)
  }

  lemma FeedNibble(poly: bv32, c: bv32, bits: seq<bool>, n: bv32)
    requires NibbleBits(n, bits)
    ensures FeedBits(poly, c, bits) == Shift4(poly, Xor(c, n))
  {
    hide Xor, Shift2, FeedBits;
    NibbleSplit(c, n);
    FeedPair(poly, c, bits[..2], n & 3);
    FeedPair(poly, Shift2(poly, Xor(c, n & 3)), bits[2..], (n >> 2) & 3);
    Shift2Linear(poly, Xor(c, n & 3), n & 0xc);
    Shift2High(poly, n & 0xc);
    assert bits == bits[..2] + bits[2..];
    FeedConcat(poly, c, bits[..2], bits[2..]);
  }

  lemma NibbleSplit(c: bv32, n: bv32)
    requires n <= 0xf
    ensures Xor(c, n) == Xor(Xor(c, n & 3), n & 0xc)
    ensures (n & 0xc) & 3 == 0 && (n & 0xc) >> 2 == (n >> 2) & 3 <= 3 && n & 3 <= 3
    ensures ((n & 3) & 1 != 0) == (n & 1 != 0) && ((n & 3) & 2 != 0) == (n & 2 != 0)
    ensures (((n >> 2) & 3) & 1 != 0) == (n & 4 != 0) && (((n >> 2) & 3) & 2 != 0) == (n & 8 != 0)
  {
  }

  lemma FeedByte(poly: bv32, c: bv32, b: bv8)
    ensures FeedBits(poly, c, BitsOf(b)) == Shift8(poly, Xor(c, Wide(b)))
  {
    hide *;
    ByteSplit(c, b);
    TopShifts(poly, Wide(b));
    assert BitsOf(b) == BitsOf(b)[..4] + BitsOf(b)[4..];
    FeedNibbles(poly, c, BitsOf(b)[..4], BitsOf(b)[4..], LowNibble(Wide(b)), HighNibble(Wide(b)), HighPart(Wide(b)), Wide(b));
  }

  lemma FeedNibbles(poly: bv32, c: bv32, first: seq<bool>, second: seq<bool>, low: bv32, high: bv32, top: bv32, n: bv32)
    requires NibbleBits(low, first) && NibbleBits(high, second)
    requires Xor(c, n) == Xor(Xor(c, low), top) && Shift4(poly, top) == high
    ensures FeedBits(poly, c, first + second) == Shift8(poly, Xor(c, n))
  {
    hide Xor, Shift4, NibbleBits, FeedBits;
    FeedNibble(poly, c, first, low);
    FeedNibble(poly, Shift4(poly, Xor(c, low)), second, high);
    Shift4Linear(poly, Xor(c, low), top);
    FeedConcat(poly, c, first, second);
  }

  function LowNibble(n: bv32): bv32 {
    n & 0xf
  }

  function HighNibble(n: bv32): bv32 {
    (n >> 4) & 0xf
  }

  function HighPart(n: bv32): bv32 {
    n & 0xf0
  }

  lemma TopShifts(poly: bv32, n: bv32)
    ensures Shift4(poly, HighPart(n)) == HighNibble(n)
  {
    hide Shift4;
    assert (n & 0xf0) & 0xf == 0 && (n & 0xf0) >> 4 == (n >> 4) & 0xf;
    Shift4High(poly, n & 0xf0);
  }

  lemma ByteSplit(c: bv32, b: bv8)
    ensures var n, bits := Wide(b), BitsOf(b);
            && Xor(c, n) == Xor(Xor(c, LowNibble(n)), HighPart(n))
            && NibbleBits(LowNibble(n), bits[..4])
            && NibbleBits(HighNibble(n), bits[4..])
  {
    var n := Wide(b);
    assert n <= 0xff;
    ByteXor(c, n);
    ByteBits(b);
  }

  lemma ByteXor(c: bv32, n: bv32)
    requires n <= 0xff
    ensures Xor(c, n) == Xor(Xor(c, LowNibble(n)), HighPart(n))
  {
    assert n == (n & 0xf) ^ (n & 0xf0);
    XorAssociates(c, n & 0xf, n & 0xf0);
  }

  lemma ByteBits(b: bv8)
    ensures var n, bits := Wide(b), BitsOf(b);
            && NibbleBits(LowNibble(n), bits[..4])
            && NibbleBits(HighNibble(n), bits[4..])
  {
  }

  /** Extending a message by one byte. */
  lemma CrcAppendByte(poly: bv32, c: bv32, bytes: seq<bv8>, b: bv8)
    ensures Crc(poly, c, bytes + [b]) == Shift8(poly, Xor(Crc(poly, c, bytes), Wide(b)))
  {
    hide Xor, Shift8;
    CrcConcat(poly, c, bytes, [b]);
    assert BitsOfBytes([b]) == BitsOf(b) + [] == BitsOf(b);
    FeedByte(poly, Crc(poly, c, bytes), b);
  }

  // ---------- Burst errors are always detected ----------

  /** `top` is the highest bit of the register, and the polynomial sets it. */
  predicate IsRegister(poly: bv32, top: bv32) {
    && (top == 0x8000 || top == 0x80000000)
    && poly & top == top
    && Fits(top, poly)
  }

  predicate Fits(top: bv32, c: bv32) {
    top == 0x8000 ==> c & 0xffff0000 == 0
  }

  /** The difference `d` of two registers has a one among the bits of `mask`. */
  predicate Gap(top: bv32, d: bv32, mask: bv32) {
    Fits(top, d) && d & mask != 0
  }

  /** For `n` more clocks the mask, widening by one bit a clock, stays clear of the lowest bit. */
  predicate Room(top: bv32, mask: bv32, n: nat)
    decreases n
  {
    n > 0 ==> mask & 1 == 0 && Room(top, Widen(top, mask), n - 1)
  }

  function Widen(top: bv32, mask: bv32): bv32 {
    (mask >> 1) | top
  }

  predicate AgreeFrom(a: seq<bool>, b: seq<bool>, n: nat)
    requires |a| == |b|
  {
    forall j | n <= j < |a| :: a[j] == b[j]
  }

  /** The two messages have the same length and differ at most in places `i .. i + n`. */
  predicate SameOutside<T(==)>(a: seq<T>, b: seq<T>, i: nat, n: nat) {
    |a| == |b| && forall j | 0 <= j < |a| && !(i <= j < i + n) :: a[j] == b[j]
  }

  lemma ShiftOdd(poly: bv32, d: bv32)
    requires d & 1 == 1
    ensures Shift(poly, d) == (d >> 1) ^ poly
  {
  }

  lemma GapOut(poly: bv32, top: bv32, d: bv32, mask: bv32)
    requires IsRegister(poly, top) && Gap(top, d, mask)
    ensures Gap(top, (d >> 1) ^ poly, Widen(top, mask)) && Gap(top, (d >> 1) ^ poly, 0xffffffff)
  {
  }

  lemma GapDown(top: bv32, d: bv32, mask: bv32)
    requires Gap(top, d, mask) && mask & 1 == 0
    ensures Gap(top, d >> 1, Widen(top, mask))
  {
  }

  lemma EvenGapDown(top: bv32, d: bv32)
    requires Gap(top, d, 0xffffffff) && d & 1 == 0
    ensures Gap(top, d >> 1, 0xffffffff)
  {
  }

  lemma ShiftKeepsGap(poly: bv32, top: bv32, d: bv32, mask: bv32)
    requires IsRegister(poly, top) && Gap(top, d, mask)
    ensures mask & 1 == 0 ==> Gap(top, Shift(poly, d), Widen(top, mask))
    ensures mask == 0xffffffff ==> Gap(top, Shift(poly, d), 0xffffffff)
  {
    hide *;
    Parity(d);
    if d & 1 == 1 {
      ShiftOdd(poly, d);
      GapOut(poly, top, d, mask);
    } else {
      ShiftHigh(poly, d);
      if mask & 1 == 0 {
        GapDown(top, d, mask);
      }
      if mask == 0xffffffff {
        EvenGapDown(top, d);
      }
    }
  }

  /** A message bit can only flip the lowest bit of the difference, which the mask leaves out. */
  lemma FlipKeepsGap(top: bv32, d: bv32, b: bool, mask: bv32)
    requires Gap(top, d, mask) && mask & 1 == 0
    ensures Gap(top, Xor(d, Bit(b)), mask)
  {
  }

  lemma AnyGap(top: bv32, d: bv32, mask: bv32)
    requires Gap(top, d, mask)
    ensures d != 0 && Gap(top, d, 0xffffffff)
  {
  }

  /** One clock with a message bit each: how the difference of two registers moves. */
  lemma DifferenceStep(poly: bv32, c1: bv32, c2: bv32, x: bool, y: bool)
    ensures Xor(Shift(poly, Xor(c1, Bit(x))), Shift(poly, Xor(c2, Bit(y)))) == Shift(poly, Xor(Xor(c1, c2), Xor(Bit(x), Bit(y))))
  {
    hide Xor, Shift;
    ShiftLinear(poly, Xor(c1, Bit(x)), Xor(c2, Bit(y)));
    XorSwap(c1, Bit(x), c2, Bit(y));
  }

  lemma XorSwap(a: bv32, b: bv32, c: bv32, d: bv32)
    ensures Xor(Xor(a, b), Xor(c, d)) == Xor(Xor(a, c), Xor(b, d))
  {
    hide Xor;
    XorAssociates(a, b, Xor(c, d));
    XorAssociates(b, c, d);
    XorCommutes(b, c);
    XorAssociates(c, b, d);
    XorAssociates(a, c, Xor(b, d));
  }

  lemma XorTwice(a: bv32)
    ensures Xor(a, a) == 0
  {
  }

  lemma XorSelf(a: bv32, b: bv32)
    ensures Xor(a, b) == 0 <==> a == b
  {
    hide Xor;
    XorTwice(a);
    XorTwice(b);
    XorZero(a);
    XorZero(b);
    XorAssociates(a, b, b);
  }

  lemma BitXor(x: bool, y: bool)
    ensures Xor(Bit(x), Bit(y)) == Bit(x != y)
  {
  }

  lemma {:induction false} DifferenceSurvives(poly: bv32, top: bv32, c1: bv32, c2: bv32, a: seq<bool>, b: seq<bool>, mask: bv32, n: nat)
    requires IsRegister(poly, top) && Gap(top, Xor(c1, c2), mask) && Room(top, mask, n)
    requires |a| == |b| && AgreeFrom(a, b, n)
    ensures FeedBits(poly, c1, a) != FeedBits(poly, c2, b)
    decreases |a|
  {
    hide *;
    var d := Xor(c1, c2);
    AnyGap(top, d, mask);
    if a == [] {
      XorSelf(c1, c2);
      FeedNothing(poly, c1, a);
      FeedNothing(poly, c2, b);
    } else {
      DifferenceStep(poly, c1, c2, a[0], b[0]);
      BitXor(a[0], b[0]);
      FeedOne(poly, c1, a);
      FeedOne(poly, c2, b);
      AgreeTail(a, b, n);
      var c1', c2' := Shift(poly, Xor(c1, Bit(a[0]))), Shift(poly, Xor(c2, Bit(b[0])));
      if n > 0 {
        RoomTail(top, mask, n);
        FlipKeepsGap(top, d, a[0] != b[0], mask);
        ShiftKeepsGap(poly, top, Xor(d, Bit(a[0] != b[0])), mask);
        DifferenceSurvives(poly, top, c1', c2', a[1..], b[1..], Widen(top, mask), n - 1);
      } else {
        NoBit(d);
        ShiftKeepsGap(poly, top, d, 0xffffffff);
        NoRoom(top);
        DifferenceSurvives(poly, top, c1', c2', a[1..], b[1..], 0xffffffff, 0);
      }
    }
  }

  lemma NoBit(d: bv32)
    ensures Xor(d, Bit(false)) == d
  {
  }

  lemma FeedNothing(poly: bv32, c: bv32, bits: seq<bool>)
    requires bits == []
    ensures FeedBits(poly, c, bits) == c
  {
  }

  lemma FeedOne(poly: bv32, c: bv32, bits: seq<bool>)
    requires bits != []
    ensures FeedBits(poly, c, bits) == FeedBits(poly, Shift(poly, Xor(c, Bit(bits[0]))), bits[1..])
  {
  }

  lemma AgreeTail(a: seq<bool>, b: seq<bool>, n: nat)
    requires |a| == |b| && a != [] && AgreeFrom(a, b, n)
    ensures AgreeFrom(a[1..], b[1..], if n > 0 then n - 1 else 0)
    ensures n == 0 ==> a[0] == b[0]
  {
  }

  lemma RoomTail(top: bv32, mask: bv32, n: nat)
    requires Room(top, mask, n) && n > 0
    ensures mask & 1 == 0 && Room(top, Widen(top, mask), n - 1)
  {
  }

  lemma NoRoom(top: bv32)
    ensures Room(top, 0xffffffff, 0)
  {
  }

  /** Two different messages of equal length that differ only inside a window of as many
    * bits as the register is wide always leave different registers, from any seed. */
  lemma {:induction false} BurstDetected(poly: bv32, top: bv32, width: nat, c: bv32, a: seq<bool>, b: seq<bool>, i: nat)
    requires IsRegister(poly, top) && width > 0 && Room(top, top, width - 1)
    requires SameOutside(a, b, i, width) && a != b
    ensures FeedBits(poly, c, a) != FeedBits(poly, c, b)
    decreases |a|
  {
    hide Xor, Shift, Gap, Fits, IsRegister, Bit, Room, FeedBits;
    FeedOne(poly, c, a);
    FeedOne(poly, c, b);
    if a[0] == b[0] {
      assert a == [a[0]] + a[1..] && b == [b[0]] + b[1..];
      BurstDetected(poly, top, width, Shift(poly, Xor(c, Bit(a[0]))), a[1..], b[1..], if i > 0 then i - 1 else 0);
    } else {
      assert i == 0;
      DifferenceStep(poly, c, c, a[0], b[0]);
      FirstDifference(poly, top, c, a[0], b[0]);
      DifferenceSurvives(poly, top, Shift(poly, Xor(c, Bit(a[0]))), Shift(poly, Xor(c, Bit(b[0]))), a[1..], b[1..], top, width - 1);
    }
  }

  lemma FirstDifference(poly: bv32, top: bv32, c: bv32, x: bool, y: bool)
    requires IsRegister(poly, top) && x != y
    ensures Gap(top, Shift(poly, Xor(Xor(c, c), Xor(Bit(x), Bit(y)))), top)
  {
    hide Xor;
    XorSelf(c, c);
    BitXor(x, y);
    XorZero(1);
    assert Shift(poly, 1) == poly;
  }

  lemma Room16()
    ensures Room(0x8000, 0x8000, 15)
  {
  }

  lemma Room32()
    ensures Room(0x80000000, 0x80000000, 31)
  {
    assert Room(0x80000000, 0xffffff00, 8);
    assert Room(0x80000000, 0xffff0000, 16);
    assert Room(0x80000000, 0xff000000, 24);
  }

  // ---------- From byte windows to bit windows ----------

  lemma {:induction false} BitAt(bytes: seq<bv8>, j: nat)
    requires j < 8 * |bytes|
    ensures BitsOfBytes(bytes)[j] == BitsOf(bytes[j / 8])[j % 8]
  {
    hide BitsOf;
    if j >= 8 {
      BitAt(bytes[1..], j - 8);
    }
  }

  lemma BitsOfInjective(x: bv8, y: bv8)
    requires x != y
    ensures exists k | 0 <= k < 8 :: BitsOf(x)[k] != BitsOf(y)[k]
  {
    var p, q := BitsOf(x), BitsOf(y);
    assert p[0] != q[0] || p[1] != q[1] || p[2] != q[2] || p[3] != q[3]
        || p[4] != q[4] || p[5] != q[5] || p[6] != q[6] || p[7] != q[7];
  }

  lemma ByteWindowIsBitWindow(a: seq<bv8>, b: seq<bv8>, i: nat, n: nat)
    requires SameOutside(a, b, i, n) && a != b
    ensures SameOutside(BitsOfBytes(a), BitsOfBytes(b), 8 * i, 8 * n)
    ensures BitsOfBytes(a) != BitsOfBytes(b)
  {
    hide BitsOf, BitsOfBytes;
    var p, q := BitsOfBytes(a), BitsOfBytes(b);
    forall j | 0 <= j < |p|
      ensures !(8 * i <= j < 8 * i + 8 * n) ==> p[j] == q[j]
    {
      BitAt(a, j);
      BitAt(b, j);
    }
    var m :| 0 <= m < |a| && a[m] != b[m];
    BitsOfInjective(a[m], b[m]);
    var k :| 0 <= k < 8 && BitsOf(a[m])[k] != BitsOf(b[m])[k];
    BitAt(a, 8 * m + k);
    BitAt(b, 8 * m + k);
  }

  lemma Crc16Burst(c: bv32, a: seq<bv8>, b: seq<bv8>, i: nat)
    requires SameOutside(a, b, i, 2) && a != b
    ensures Crc(POLY16, c, a) != Crc(POLY16, c, b)
  {
    ByteWindowIsBitWindow(a, b, i, 2);
    Room16();
    BurstDetected(POLY16, 0x8000, 16, c, BitsOfBytes(a), BitsOfBytes(b), 8 * i);
  }

  lemma Crc32Burst(c: bv32, a: seq<bv8>, b: seq<bv8>, i: nat)
    requires SameOutside(a, b, i, 4) && a != b
    ensures Crc(POLY32, c, a) != Crc(POLY32, c, b)
  {
    ByteWindowIsBitWindow(a, b, i, 4);
    Room32();
    BurstDetected(POLY32, 0x80000000, 32, c, BitsOfBytes(a), BitsOfBytes(b), 8 * i);
  }
}
