/** The driver SDK's checksums as it computes them: a byte loop up to a word boundary,
  * sixteen bytes a turn through stacked lookup tables, and a byte loop for the tail.
  * Loads are little-endian.
  */
module FastCrc {
  import opened BitSerialCrc
  import opened CrcTables

  /** A 32-bit load at byte `i`. */
  function Load(data: seq<bv8>, i: nat): bv32
    requires i + 4 <= |data|
  {
    (Wide(data[i])) | ((data[i + 1] as bv32) << 8) | ((data[i + 2] as bv32) << 16) | ((data[i + 3] as bv32) << 24)
  }

  predicate Is16(x: bv32) {
    x <= 0xffff
  }

  function Trunc16(x: bv32): bv32 {
    x & 0xffff
  }

  /** The step of both byte loops. */
  function ByteStep16(crc: bv32, b: bv8): bv32 {
    LowIndex(crc, b);
    Trunc16(Xor(Rest(crc), Table16(Xor(Low(crc), Wide(b)))))
  }

  /** `crc_n4`, with the register truncated to 16 bits as its type demands. */
  function CrcN4(crc: bv32, word: bv32): bv32 {
    var c := Trunc16(Xor(crc, word));
    N4Bounds(c, word);
    Trunc16(Xor(Xor(Xor(Lookup3(Low(c)), Lookup2(Low(Rest(c)))), Lookup1(Low(word >> 16))), Table16(word >> 24)))
  }

  function Lookup1(i: bv32): bv32
    requires i <= 0xff
  {
    Table16(i + 0x100)
  }

  function Lookup2(i: bv32): bv32
    requires i <= 0xff
  {
    Table16(i + 0x200)
  }

  function Lookup3(i: bv32): bv32
    requires i <= 0xff
  {
    Table16(i + 0x300)
  }

  function ByteStep32(crc: bv32, b: bv8): bv32 {
    LowIndex(crc, b);
    Xor(Rest(crc), Table32(Xor(Low(crc), Wide(b))))
  }

  function TableStep32(crc: bv32): bv32 {
    LowBound(crc);
    Xor(Rest(crc), Table32(Low(crc)))
  }

  /** `crcsm_n4d`. */
  function CrcSmN4D(crc: bv32, word: bv32): bv32 {
    TableStep32(TableStep32(TableStep32(TableStep32(Xor(crc, word)))))
  }

  lemma LowBound(crc: bv32)
    ensures Low(crc) <= 0xff
  {
  }

  lemma LowIndex(crc: bv32, b: bv8)
    ensures Xor(Low(crc), Wide(b)) == Low(Xor(crc, Wide(b))) <= 0xff
  {
  }

  lemma RestIndex(crc: bv32, b: bv8)
    ensures Rest(Xor(crc, Wide(b))) == Rest(crc)
  {
  }

  lemma N4Bounds(c: bv32, word: bv32)
    ensures Low(c) <= 0xff && Low(Rest(c)) <= 0xff && Low(word >> 16) <= 0xff && word >> 24 <= 0xff && word >> 24 <= 0x3ff
  {
  }

  // ---------- Every step is the bit-serial register ----------

  lemma LoadBytes(data: seq<bv8>, i: nat)
    requires i + 4 <= |data|
    ensures var word := Load(data, i);
            && Low(word) == Wide(data[i]) && Low(Rest(word)) == Wide(data[i + 1])
            && Low(Rest(Rest(word))) == Wide(data[i + 2]) && Rest(Rest(Rest(word))) == Wide(data[i + 3])
  {
    WordBytes(data[i], data[i + 1], data[i + 2], data[i + 3]);
  }

  lemma WordBytes(b0: bv8, b1: bv8, b2: bv8, b3: bv8)
    ensures var word := (b0 as bv32) | ((b1 as bv32) << 8) | ((b2 as bv32) << 16) | ((b3 as bv32) << 24);
            && Low(word) == Wide(b0) && Low(Rest(word)) == Wide(b1)
            && Low(Rest(Rest(word))) == Wide(b2) && Rest(Rest(Rest(word))) == Wide(b3)
  {
  }

  /** Four bytes fed one at a time are one exclusive-or with the loaded word and thirty-two clocks. */
  lemma FeedWord(poly: bv32, seed: bv32, data: seq<bv8>, i: nat)
    requires i + 4 <= |data|
    ensures Crc(poly, seed, data[..i + 4])
         == Shift8(poly, Shift8(poly, Shift8(poly, Shift8(poly, Xor(Crc(poly, seed, data[..i]), Load(data, i))))))
  {
    hide *;
    LoadBytes(data, i);
    FeedPrefix(poly, seed, data, i);
    FeedPrefix(poly, seed, data, i + 1);
    FeedPrefix(poly, seed, data, i + 2);
    FeedPrefix(poly, seed, data, i + 3);
    FourBytes(poly, Load(data, i), Crc(poly, seed, data[..i]), Crc(poly, seed, data[..i + 1]),
              Crc(poly, seed, data[..i + 2]), Crc(poly, seed, data[..i + 3]), Crc(poly, seed, data[..i + 4]));
  }

  lemma FourBytes(poly: bv32, d: bv32, c: bv32, c1: bv32, c2: bv32, c3: bv32, c4: bv32)
    requires c1 == Shift8(poly, Xor(c, Low(d))) && c2 == Shift8(poly, Xor(c1, Low(Rest(d))))
    requires c3 == Shift8(poly, Xor(c2, Low(Rest(Rest(d))))) && c4 == Shift8(poly, Xor(c3, Rest(Rest(Rest(d)))))
    ensures c4 == Shift8(poly, Shift8(poly, Shift8(poly, Shift8(poly, Xor(c, d)))))
  {
    hide *;
    PeelByte(poly, c, d);
    PeelByte(poly, c1, Rest(d));
    PeelByte(poly, c2, Rest(Rest(d)));
  }

  lemma FeedPrefix(poly: bv32, seed: bv32, data: seq<bv8>, i: nat)
    requires i < |data|
    ensures Crc(poly, seed, data[..i + 1]) == Shift8(poly, Xor(Crc(poly, seed, data[..i]), Wide(data[i])))
  {
    hide *;
    assert data[..i + 1] == data[..i] + [data[i]];
    CrcAppendByte(poly, seed, data[..i], data[i]);
  }

  lemma PeelByte(poly: bv32, c: bv32, d: bv32)
    ensures Shift8(poly, Xor(c, d)) == Xor(Shift8(poly, Xor(c, Low(d))), Rest(d))
  {
    hide Xor, Shift8;
    Peel(poly, c, d);
  }

  lemma Fits16Once(c: bv32)
    requires Is16(c)
    ensures Is16(Shift(POLY16, c))
  {
  }

  lemma Fits16Twice(c: bv32)
    requires Is16(c)
    ensures Is16(Shift2(POLY16, c))
  {
    hide Shift, Is16;
    Fits16Once(c);
    Fits16Once(Shift(POLY16, c));
  }

  lemma Fits16(c: bv32)
    requires Is16(c)
    ensures Is16(Shift8(POLY16, c))
  {
    hide Shift2, Is16;
    Fits16Twice(c);
    Fits16Twice(Shift2(POLY16, c));
    Fits16Twice(Shift2(POLY16, Shift2(POLY16, c)));
    Fits16Twice(Shift2(POLY16, Shift2(POLY16, Shift2(POLY16, c))));
  }

  lemma Truncates(x: bv32)
    requires Is16(x)
    ensures Trunc16(x) == x
  {
  }

  lemma XorIs16(a: bv32, b: bv32)
    requires Is16(a) && Is16(b)
    ensures Is16(Xor(a, b))
  {
  }

  lemma WideIs16(b: bv8)
    ensures Is16(Wide(b))
  {
  }

  lemma ByteIs16(x: bv32)
    requires x <= 0xff
    ensures Is16(x)
  {
  }

  lemma ByteStep16Correct(crc: bv32, b: bv8)
    requires Is16(crc)
    ensures ByteStep16(crc, b) == Shift8(POLY16, Xor(crc, Wide(b))) && Is16(ByteStep16(crc, b))
  {
    hide *;
    var bb := Wide(b);
    WideIs16(b);
    LowIndex(crc, b);
    RestIndex(crc, b);
    var x := Xor(crc, bb);
    LookupFits(Low(x));
    BitSerialCrc.ByteStep(POLY16, x);
    XorIs16(crc, bb);
    Fits16(x);
    Truncates(Shift8(POLY16, x));
    ByteStep16Def(crc, b);
  }

  lemma ByteStep16Def(crc: bv32, b: bv8)
    ensures Xor(Low(crc), Wide(b)) <= 0x3ff
    ensures ByteStep16(crc, b) == Trunc16(Xor(Rest(crc), Table16(Xor(Low(crc), Wide(b)))))
  {
    hide Xor, Low, Rest, Table16, Trunc16;
    LowIndex(crc, b);
  }

  lemma ByteStep32Correct(crc: bv32, b: bv8)
    ensures ByteStep32(crc, b) == Shift8(POLY32, Xor(crc, Wide(b)))
  {
    hide Xor, Shift8, Table32, Low, Rest;
    LowIndex(crc, b);
    RestIndex(crc, b);
    Table32Meaning(Low(Xor(crc, Wide(b))));
    BitSerialCrc.ByteStep(POLY32, Xor(crc, Wide(b)));
  }

  lemma TableStep32Correct(crc: bv32)
    ensures TableStep32(crc) == Shift8(POLY32, crc)
  {
    hide Xor, Shift8, Table32, Low, Rest;
    LowBound(crc);
    Table32Meaning(Low(crc));
    BitSerialCrc.ByteStep(POLY32, crc);
  }

  lemma CrcSmN4DCorrect(crc: bv32, word: bv32)
    ensures CrcSmN4D(crc, word) == Shift8(POLY32, Shift8(POLY32, Shift8(POLY32, Shift8(POLY32, Xor(crc, word)))))
  {
    hide Xor, Shift8, TableStep32;
    var x := Xor(crc, word);
    TableStep32Correct(x);
    TableStep32Correct(Shift8(POLY32, x));
    TableStep32Correct(Shift8(POLY32, Shift8(POLY32, x)));
    TableStep32Correct(Shift8(POLY32, Shift8(POLY32, Shift8(POLY32, x))));
  }

  lemma TruncBytes(x: bv32)
    ensures Low(Trunc16(x)) == Low(x) && Low(Rest(Trunc16(x))) == Low(Rest(x))
  {
  }

  lemma UpperBytes(crc: bv32, word: bv32)
    requires Is16(crc)
    ensures word >> 16 == Rest(Rest(Xor(crc, word)))
  {
    assert (crc ^ word) >> 8 >> 8 == word >> 16;
  }

  lemma TopByte(word: bv32)
    ensures word >> 24 == Rest(word >> 16)
  {
  }

  /** The four lookups of `crc_n4` are the register after the four bytes of the word. */
  lemma CrcN4Correct(crc: bv32, word: bv32)
    requires Is16(crc)
    ensures CrcN4(crc, word) == Shift8(POLY16, Shift8(POLY16, Shift8(POLY16, Shift8(POLY16, Xor(crc, word)))))
    ensures Is16(CrcN4(crc, word))
  {
    hide *;
    var w := Xor(crc, word);
    N4Bounds(Trunc16(w), word);
    TruncBytes(w);
    UpperBytes(crc, word);
    TopByte(word);
    LookupFits(Low(w));
    LookupFits(Low(Rest(w)));
    LookupFits(Low(Rest(Rest(w))));
    LookupFits(Rest(Rest(Rest(w))));
    Slice(POLY16, w);
    CrcN4Def(crc, word);
    JoinLookups(Lookup3(Low(w)), Lookup2(Low(Rest(w))), Lookup1(Low(Rest(Rest(w)))), Table16(Rest(Rest(Rest(w)))));
  }

  lemma CrcN4Def(crc: bv32, word: bv32)
    ensures var c := Trunc16(Xor(crc, word));
            && Low(c) <= 0xff && Low(Rest(c)) <= 0xff && Low(word >> 16) <= 0xff && word >> 24 <= 0xff && word >> 24 <= 0x3ff
            && CrcN4(crc, word)
               == Trunc16(Xor(Xor(Xor(Lookup3(Low(c)), Lookup2(Low(Rest(c)))), Lookup1(Low(word >> 16))), Table16(word >> 24)))
  {
    N4Bounds(Trunc16(Xor(crc, word)), word);
    hide Xor, Low, Rest, Table16, Trunc16, Lookup1, Lookup2, Lookup3;
  }

  lemma LookupFits(i: bv32)
    requires i <= 0xff
    ensures i <= 0x3ff && Table16(i) == Shift8(POLY16, i) && Is16(Table16(i))
    ensures Lookup1(i) == Shift8(POLY16, Shift8(POLY16, i)) && Is16(Lookup1(i))
    ensures Lookup2(i) == Shift8(POLY16, Shift8(POLY16, Shift8(POLY16, i))) && Is16(Lookup2(i))
    ensures Lookup3(i) == Shift8(POLY16, Shift8(POLY16, Shift8(POLY16, Shift8(POLY16, i)))) && Is16(Lookup3(i))
  {
    ByteIs16(i);
    LookupDefs(i);
    hide *;
    Table16Meaning(i);
    ZerosUnfold(i);
    Fits16(i);
    Fits16(Shift8(POLY16, i));
    Fits16(Shift8(POLY16, Shift8(POLY16, i)));
    Fits16(Shift8(POLY16, Shift8(POLY16, Shift8(POLY16, i))));
  }

  lemma LookupDefs(i: bv32)
    requires i <= 0xff
    ensures i <= 0x3ff && i + 0x100 <= 0x3ff && Lookup1(i) == Table16(i + 0x100)
    ensures i + 0x200 <= 0x3ff && Lookup2(i) == Table16(i + 0x200)
    ensures i + 0x300 <= 0x3ff && Lookup3(i) == Table16(i + 0x300)
  {
    hide Table16;
  }

  lemma ZerosUnfold(i: bv32)
    ensures Zeros(POLY16, 0, i) == Shift8(POLY16, i)
    ensures Zeros(POLY16, 1, i) == Shift8(POLY16, Shift8(POLY16, i))
    ensures Zeros(POLY16, 2, i) == Shift8(POLY16, Shift8(POLY16, Shift8(POLY16, i)))
    ensures Zeros(POLY16, 3, i) == Shift8(POLY16, Shift8(POLY16, Shift8(POLY16, Shift8(POLY16, i))))
  {
    hide Shift8;
  }

  lemma JoinLookups(a: bv32, b: bv32, c: bv32, d: bv32)
    requires Is16(a) && Is16(b) && Is16(c) && Is16(d)
    ensures Trunc16(Xor(Xor(Xor(a, b), c), d)) == Xor(Xor(Xor(a, b), c), d)
    ensures Is16(Xor(Xor(Xor(a, b), c), d))
  {
    hide *;
    XorIs16(a, b);
    XorIs16(Xor(a, b), c);
    XorIs16(Xor(Xor(a, b), c), d);
    Truncates(Xor(Xor(Xor(a, b), c), d));
  }

  // ---------- The two classes ----------

  function Widen16(seed: bv16): bv32 {
    seed as bv32
  }

  lemma SeedIs16(seed: bv16)
    ensures Is16(Widen16(seed))
  {
  }

  class FastCRC16 {
    const seed: bv16

    constructor (seed: bv16)
      ensures this.seed == seed
    {
      this.seed := seed;
    }

    /** `mcrf4xx_calc` on the bytes `data` stored from `address` on. */
    method Mcrf4xxCalc(address: nat, data: seq<bv8>) returns (crc: bv32)
      requires |data| <= 0xffff
      ensures crc == Crc(POLY16, Widen16(seed), data) && Is16(crc)
    {
      hide *;
      crc := Widen16(seed);
      SeedIs16(seed);
      ghost var start := crc;
      var i, len := 0, |data|;
      CrcNothing(POLY16, crc);
      assert data[..0] == [];
      while (address + i) % 4 != 0 && len > 0
        invariant 0 <= i && 0 <= len && i + len == |data|
        invariant crc == Crc(POLY16, start, data[..i]) && Is16(crc)
        decreases len
      {
        ByteStep16Correct(crc, data[i]);
        FeedPrefix(POLY16, start, data, i);
        crc := ByteStep16(crc, data[i]);
        i, len := i + 1, len - 1;
      }
      while len >= 16
        invariant 0 <= i && 0 <= len && i + len == |data|
        invariant crc == Crc(POLY16, start, data[..i]) && Is16(crc)
        decreases len
      {
        len := len - 16;
        for word := 0 to 4
          invariant crc == Crc(POLY16, start, data[..i + 4 * word]) && Is16(crc)
        {
          CrcN4Correct(crc, Load(data, i + 4 * word));
          FeedWord(POLY16, start, data, i + 4 * word);
          crc := CrcN4(crc, Load(data, i + 4 * word));
        }
        i := i + 16;
      }
      while len > 0
        invariant 0 <= i && 0 <= len && i + len == |data|
        invariant crc == Crc(POLY16, start, data[..i]) && Is16(crc)
        decreases len
      {
        ByteStep16Correct(crc, data[i]);
        FeedPrefix(POLY16, start, data, i);
        crc := ByteStep16(crc, data[i]);
        i, len := i + 1, len - 1;
      }
      assert data[..i] == data;
    }
  }

  lemma CrcNothing(poly: bv32, c: bv32)
    ensures Crc(poly, c, []) == c
  {
  }

  const ONES: bv32 := 0xffffffff

  /** What `crc32_calc` promises: the register is inverted on the way in and on the way out. */
  function Crc32(seed: bv32, data: seq<bv8>): bv32 {
    Xor(Crc(POLY32, Xor(seed, ONES), data), ONES)
  }

  lemma Crc32Def(seed: bv32, data: seq<bv8>)
    ensures Crc32(seed, data) == Xor(Crc(POLY32, Xor(seed, ONES), data), ONES)
  {
  }

  class FastCRC32 {
    const seed: bv32

    constructor (seed: bv32)
      ensures this.seed == seed
    {
      this.seed := seed;
    }

    /** `crc32_calc` without the big tables. */
    method Crc32Calc(address: nat, data: seq<bv8>) returns (crc: bv32)
      requires |data| <= 0xffff
      ensures crc == Crc32(seed, data)
    {
      hide *;
      crc := Xor(seed, ONES);
      ghost var start := crc;
      var i, len := 0, |data|;
      CrcNothing(POLY32, crc);
      assert data[..0] == [];
      while (address + i) % 4 != 0 && len > 0
        invariant 0 <= i && 0 <= len && i + len == |data|
        invariant crc == Crc(POLY32, start, data[..i])
        decreases len
      {
        ByteStep32Correct(crc, data[i]);
        FeedPrefix(POLY32, start, data, i);
        crc := ByteStep32(crc, data[i]);
        i, len := i + 1, len - 1;
      }
      while len >= 16
        invariant 0 <= i && 0 <= len && i + len == |data|
        invariant crc == Crc(POLY32, start, data[..i])
        decreases len
      {
        len := len - 16;
        for word := 0 to 4
          invariant crc == Crc(POLY32, start, data[..i + 4 * word])
        {
          CrcSmN4DCorrect(crc, Load(data, i + 4 * word));
          FeedWord(POLY32, start, data, i + 4 * word);
          crc := CrcSmN4D(crc, Load(data, i + 4 * word));
        }
        i := i + 16;
      }
      while len > 0
        invariant 0 <= i && 0 <= len && i + len == |data|
        invariant crc == Crc(POLY32, start, data[..i])
        decreases len
      {
        ByteStep32Correct(crc, data[i]);
        FeedPrefix(POLY32, start, data, i);
        crc := ByteStep32(crc, data[i]);
        i, len := i + 1, len - 1;
      }
      assert data[..i] == data;
      crc := Xor(crc, ONES);
      Crc32Def(seed, data);
    }
  }

  // ---------- What the callers rely on ----------

  /** A checksum can be continued: seeding with the checksum of `a` and running over `b`
    * gives the checksum of `a` followed by `b`. */
  lemma Crc32Continues(seed: bv32, a: seq<bv8>, b: seq<bv8>)
    ensures Crc32(Crc32(seed, a), b) == Crc32(seed, a + b)
  {
    hide Crc, Xor;
    CrcConcat(POLY32, Xor(seed, ONES), a, b);
    var c := Crc(POLY32, Xor(seed, ONES), a);
    DoubleInversion(c);
  }

  lemma DoubleInversion(c: bv32)
    ensures Xor(Xor(c, ONES), ONES) == c
  {
  }

  /** Two different messages of equal length that differ only inside four neighbouring bytes
    * have different 32-bit checksums, whatever the seed. */
  lemma Crc32DetectsBursts(seed: bv32, a: seq<bv8>, b: seq<bv8>, i: nat)
    requires SameOutside(a, b, i, 4) && a != b
    ensures Crc32(seed, a) != Crc32(seed, b)
  {
    hide Crc, Xor;
    Crc32Burst(Xor(seed, ONES), a, b, i);
    DoubleInversion(Crc(POLY32, Xor(seed, ONES), a));
    DoubleInversion(Crc(POLY32, Xor(seed, ONES), b));
  }

  // ---------- The check values ----------

  /** The digits from 1 to 9. */
  const DIGITS: seq<bv8> := [0x31, 0x32, 0x33, 0x34, 0x35, 0x36, 0x37, 0x38, 0x39]

  /** The register after each digit. */
  const CHECK16: seq<bv32> := [0xffff, 0x2f8d, 0x4d53, 0x634b, 0x8b13, 0x44bf, 0x198d, 0x1ac8, 0xf795, 0x6f91]
  const CHECK32: seq<bv32> := [
    0xffffffff, 0x7c231048, 0xb0acbb32, 0x77b79c2d, 0x641c1f5c,
    0x340ac5e3, 0xf68d2c9e, 0xaffc9660, 0x651f2550, 0x340bc6d9]

  lemma Digits16(k: nat)
    requires k < 9
    ensures Shift8(POLY16, Xor(CHECK16[k], Wide(DIGITS[k]))) == CHECK16[k + 1]
  {
    match k {
      case 0 => case 1 => case 2 => case 3 => case 4 => case 5 => case 6 => case 7 => case _ =>
    }
  }

  lemma Digits32(k: nat)
    requires k < 9
    ensures Shift8(POLY32, Xor(CHECK32[k], Wide(DIGITS[k]))) == CHECK32[k + 1]
  {
    match k {
      case 0 => case 1 => case 2 => case 3 => case 4 => case 5 => case 6 => case 7 => case _ =>
    }
  }

  lemma {:induction false} Registers(poly: bv32, values: seq<bv32>, k: nat)
    requires |values| == 10 && k <= 9
    requires forall i: nat | i < 9 :: Shift8(poly, Xor(values[i], Wide(DIGITS[i]))) == values[i + 1]
    ensures Crc(poly, values[0], DIGITS[..k]) == values[k]
  {
    hide Crc, Shift8, Xor, Wide;
    if k == 0 {
      CrcNothing(poly, values[0]);
    } else {
      Registers(poly, values, k - 1);
      assert DIGITS[..k] == DIGITS[..k - 1] + [DIGITS[k - 1]];
      CrcAppendByte(poly, values[0], DIGITS[..k - 1], DIGITS[k - 1]);
    }
  }

  /** Both checksums have the check values that their documentation gives. */
  lemma CheckValues()
    ensures Crc(POLY16, 0xffff, DIGITS) == 0x6f91
    ensures Crc32(0, DIGITS) == 0xcbf43926
  {
    forall k: nat | k < 9
      ensures Shift8(POLY16, Xor(CHECK16[k], Wide(DIGITS[k]))) == CHECK16[k + 1]
      ensures Shift8(POLY32, Xor(CHECK32[k], Wide(DIGITS[k]))) == CHECK32[k + 1]
    {
      Digits16(k);
      Digits32(k);
    }
    Inverted();
    hide Crc, Shift8, Xor, Wide;
    Registers(POLY16, CHECK16, 9);
    Registers(POLY32, CHECK32, 9);
    assert DIGITS[..9] == DIGITS;
  }

  lemma Inverted()
    ensures Xor(0, ONES) == CHECK32[0] && Xor(CHECK32[9], ONES) == 0xcbf43926
  {
  }
}
