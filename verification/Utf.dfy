/** Unicode encodings as rapidjson reads and writes them. A character of a byte stream is an
  * unsigned byte here.
  */
module Utf {
  import opened Wrappers

  // ---------- Byte streams ----------

  /** What a stream over `bytes` gives at a position: past the end, NUL for ever. */
  function At(bytes: seq<bv8>, k: nat): bv8 {
    if k < |bytes| then bytes[k] else 0
  }

  /** The next `n` characters from a position on. */
  function Next(bytes: seq<bv8>, from: nat, n: nat): (s: seq<bv8>)
    ensures |s| == n
  {
    seq(n, i requires 0 <= i < n => At(bytes, from + i))
  }

  /** A stream over memory. `taken` counts the characters taken, NULs after the end included. */
  class MemoryStream {
    const src: seq<bv8>
    var pos: nat
    ghost var taken: nat

    ghost predicate Valid()
      reads this
    {
      pos == if taken <= |src| then taken else |src|
    }

    constructor (src: seq<bv8>)
      ensures Valid() && this.src == src && taken == 0
    {
      this.src := src;
      pos, taken := 0, 0;
    }

    method Take() returns (c: bv8)
      requires Valid()
      modifies this
      ensures Valid() && taken == old(taken) + 1
      ensures c == At(src, old(taken))
    {
      taken := taken + 1;
      if pos == |src| { return 0; }
      c := src[pos];
      pos := pos + 1;
    }
  }

  /** A stream to write to. */
  class Output<C> {
    var written: seq<C>

    constructor ()
      ensures written == []
    {
      written := [];
    }

    method Put(c: C)
      modifies this
      ensures written == old(written) + [c]
    {
      written := written + [c];
    }
  }

  // ---------- The classes of bytes ----------

  /** The classes of bytes, by the high and the low half of the byte. */
  const RANGES: seq<seq<bv8>> := [
    [0, 0, 0, 0, 0, 0, 0, 0, 0, 0, 0, 0, 0, 0, 0, 0],
    [0, 0, 0, 0, 0, 0, 0, 0, 0, 0, 0, 0, 0, 0, 0, 0],
    [0, 0, 0, 0, 0, 0, 0, 0, 0, 0, 0, 0, 0, 0, 0, 0],
    [0, 0, 0, 0, 0, 0, 0, 0, 0, 0, 0, 0, 0, 0, 0, 0],
    [0, 0, 0, 0, 0, 0, 0, 0, 0, 0, 0, 0, 0, 0, 0, 0],
    [0, 0, 0, 0, 0, 0, 0, 0, 0, 0, 0, 0, 0, 0, 0, 0],
    [0, 0, 0, 0, 0, 0, 0, 0, 0, 0, 0, 0, 0, 0, 0, 0],
    [0, 0, 0, 0, 0, 0, 0, 0, 0, 0, 0, 0, 0, 0, 0, 0],
    [0x10, 0x10, 0x10, 0x10, 0x10, 0x10, 0x10, 0x10, 0x10, 0x10, 0x10, 0x10, 0x10, 0x10, 0x10, 0x10],
    [0x40, 0x40, 0x40, 0x40, 0x40, 0x40, 0x40, 0x40, 0x40, 0x40, 0x40, 0x40, 0x40, 0x40, 0x40, 0x40],
    [0x20, 0x20, 0x20, 0x20, 0x20, 0x20, 0x20, 0x20, 0x20, 0x20, 0x20, 0x20, 0x20, 0x20, 0x20, 0x20],
    [0x20, 0x20, 0x20, 0x20, 0x20, 0x20, 0x20, 0x20, 0x20, 0x20, 0x20, 0x20, 0x20, 0x20, 0x20, 0x20],
    [8, 8, 2, 2, 2, 2, 2, 2, 2, 2, 2, 2, 2, 2, 2, 2],
    [2, 2, 2, 2, 2, 2, 2, 2, 2, 2, 2, 2, 2, 2, 2, 2],
    [10, 3, 3, 3, 3, 3, 3, 3, 3, 3, 3, 3, 3, 4, 3, 3],
    [11, 6, 6, 6, 5, 8, 8, 8, 8, 8, 8, 8, 8, 8, 8, 8]
  ]

  function GetRange(c: bv8): bv8 {
    var i := c as int;
    assert |RANGES| == 16 && |RANGES[i / 16]| == 16;
    RANGES[i / 16][i % 16]
  }

  /** The classes, by ranges of bytes. */
  function RangeOf(c: bv8): bv8 {
    if c < 0x80 then 0
    else if c < 0x90 then 0x10
    else if c < 0xA0 then 0x40
    else if c < 0xC0 then 0x20
    else if c < 0xC2 then 8
    else if c < 0xE0 then 2
    else if c == 0xE0 then 10
    else if c < 0xED then 3
    else if c == 0xED then 4
    else if c < 0xF0 then 3
    else if c == 0xF0 then 11
    else if c < 0xF4 then 6
    else if c == 0xF4 then 5
    else 8
  }

  lemma Ascii1(c: bv8)
    requires c < 0x40
    ensures GetRange(c) == RangeOf(c)
  {
    var i := c as int;
    assert 0 <= i / 16 < 4;
  }

  lemma Ascii2(c: bv8)
    requires 0x40 <= c < 0x80
    ensures GetRange(c) == RangeOf(c)
  {
    var i := c as int;
    assert 4 <= i / 16 < 8;
  }

  lemma Tails(c: bv8)
    requires 0x80 <= c < 0xC0
    ensures GetRange(c) == RangeOf(c)
  {
    var i := c as int;
    assert 8 <= i / 16 < 12;
  }

  lemma Leads2(c: bv8)
    requires 0xC0 <= c < 0xE0
    ensures GetRange(c) == RangeOf(c)
  {
    var i := c as int;
    assert 12 <= i / 16 < 14;
  }

  lemma Leads34(c: bv8)
    requires 0xE0 <= c
    ensures GetRange(c) == RangeOf(c)
  {
    var i := c as int;
    assert 14 <= i / 16;
  }

  /** The table is right about every byte. */
  lemma GetRangeMeaning(c: bv8)
    ensures GetRange(c) == RangeOf(c)
  {
    if c < 0x40 {
      Ascii1(c);
    } else if c < 0x80 {
      Ascii2(c);
    } else if c < 0xC0 {
      Tails(c);
    } else if c < 0xE0 {
      Leads2(c);
    } else {
      Leads34(c);
    }
    hide GetRange;
  }

  // ---------- UTF-8 ----------

  predicate Tail(b: bv8) {
    0x80 <= b <= 0xBF
  }

  /** The syntax of one character, section 4 of RFC 3629. */
  predicate Utf8Char(s: seq<bv8>) {
    || (|s| == 1 && s[0] <= 0x7F)
    || (|s| == 2 && 0xC2 <= s[0] <= 0xDF && Tail(s[1]))
    || (|s| == 3 && Tail(s[2]) &&
        ( || (s[0] == 0xE0 && 0xA0 <= s[1] <= 0xBF)
          || (0xE1 <= s[0] <= 0xEC && Tail(s[1]))
          || (s[0] == 0xED && 0x80 <= s[1] <= 0x9F)
          || (0xEE <= s[0] <= 0xEF && Tail(s[1]))))
    || (|s| == 4 && Tail(s[2]) && Tail(s[3]) &&
        ( || (s[0] == 0xF0 && 0x90 <= s[1] <= 0xBF)
          || (0xF1 <= s[0] <= 0xF3 && Tail(s[1]))
          || (s[0] == 0xF4 && 0x80 <= s[1] <= 0x8F)))
  }

  /** The number a character encodes, section 3 of RFC 3629: the bits marked `x`, in order. */
  function Scalar(s: seq<bv8>): bv32
    requires 1 <= |s| <= 4
  {
    if |s| == 1 then s[0] as bv32
    else if |s| == 2 then Scalar2(s[0], s[1])
    else if |s| == 3 then Scalar3(s[0], s[1], s[2])
    else Scalar4(s[0], s[1], s[2], s[3])
  }

  function Scalar2(a: bv8, b: bv8): bv32 {
    Append6((a & 0x1F) as bv32, b)
  }

  function Scalar3(a: bv8, b: bv8, c: bv8): bv32 {
    Append6(Append6((a & 0x0F) as bv32, b), c)
  }

  function Scalar4(a: bv8, b: bv8, c: bv8, d: bv8): bv32 {
    Append6(Append6(Append6((a & 0x07) as bv32, b), c), d)
  }

  function Append6(x: bv32, b: bv8): bv32 {
    (x << 6) | ((b & 0x3F) as bv32)
  }

  /** The scalar values: all code points but the surrogates. */
  predicate IsScalar(codepoint: bv32) {
    codepoint <= 0x10FFFF && !(0xD800 <= codepoint <= 0xDFFF)
  }

  function Byte(x: bv32): bv8 {
    (x & 0xFF) as bv8
  }

  function Two(c: bv32): (bv8, bv8) {
    (Byte(0xC0 | ((c >> 6) & 0xFF)), Byte(0x80 | (c & 0x3F)))
  }

  function Three(c: bv32): (bv8, bv8, bv8) {
    (Byte(0xE0 | ((c >> 12) & 0xFF)), Byte(0x80 | ((c >> 6) & 0x3F)), Byte(0x80 | (c & 0x3F)))
  }

  function Four(c: bv32): (bv8, bv8, bv8, bv8) {
    (Byte(0xF0 | ((c >> 18) & 0xFF)), Byte(0x80 | ((c >> 12) & 0x3F)), Byte(0x80 | ((c >> 6) & 0x3F)),
     Byte(0x80 | (c & 0x3F)))
  }

  function Encoded(codepoint: bv32): seq<bv8> {
    if codepoint <= 0x7F then [Byte(codepoint)]
    else if codepoint <= 0x7FF then var b := Two(codepoint); [b.0, b.1]
    else if codepoint <= 0xFFFF then var b := Three(codepoint); [b.0, b.1, b.2]
    else var b := Four(codepoint); [b.0, b.1, b.2, b.3]
  }

  lemma OneByte(c: bv32)
    requires c <= 0x7F
    ensures Byte(c) <= 0x7F && Byte(c) as bv32 == c
  {
  }

  lemma TwoBytes(c: bv32)
    requires 0x80 <= c <= 0x7FF
    ensures 0xC2 <= Two(c).0 <= 0xDF && Tail(Two(c).1)
    ensures Scalar2(Two(c).0, Two(c).1) == c
  {
  }

  lemma ThreeBytes(c: bv32)
    requires 0x800 <= c <= 0xFFFF
    ensures Tail(Three(c).1) && Tail(Three(c).2)
    ensures 0xE0 <= Three(c).0 <= 0xEF
    ensures Three(c).0 == 0xE0 ==> 0xA0 <= Three(c).1
    ensures Three(c).0 == 0xED ==> (Three(c).1 <= 0x9F <==> !(0xD800 <= c <= 0xDFFF))
    ensures 0xD800 <= c <= 0xDFFF ==> Three(c).0 == 0xED
  {
  }

  lemma ThreeBytesBack(c: bv32)
    requires 0x800 <= c <= 0xFFFF
    ensures Scalar3(Three(c).0, Three(c).1, Three(c).2) == c
  {
  }

  lemma FourBytes(c: bv32)
    requires 0x10000 <= c <= 0x10FFFF
    ensures Tail(Four(c).1) && Tail(Four(c).2) && Tail(Four(c).3)
    ensures 0xF0 <= Four(c).0 <= 0xF4
    ensures Four(c).0 == 0xF0 ==> 0x90 <= Four(c).1
    ensures Four(c).0 == 0xF4 ==> Four(c).1 <= 0x8F
  {
  }

  lemma FourBytesBack(c: bv32)
    requires 0x10000 <= c <= 0x10FFFF
    ensures Scalar4(Four(c).0, Four(c).1, Four(c).2, Four(c).3) == c
  {
  }

  /** Encoding gives a character of the syntax, exactly for the scalar values. */
  lemma EncodedIsUtf8(codepoint: bv32)
    requires codepoint <= 0x10FFFF
    ensures Utf8Char(Encoded(codepoint)) <==> IsScalar(codepoint)
    ensures Scalar(Encoded(codepoint)) == codepoint
  {
    hide Byte, Scalar2, Scalar3, Scalar4, Two, Three, Four;
    if codepoint <= 0x7F {
      OneByte(codepoint);
    } else if codepoint <= 0x7FF {
      TwoBytes(codepoint);
    } else if codepoint <= 0xFFFF {
      ThreeBytes(codepoint);
      ThreeBytesBack(codepoint);
    } else {
      FourBytes(codepoint);
      FourBytesBack(codepoint);
    }
  }

  lemma OneBack(a: bv8)
    requires a <= 0x7F
    ensures a as bv32 <= 0x7F && Byte(a as bv32) == a
  {
  }

  lemma TwoBack(a: bv8, b: bv8)
    requires 0xC2 <= a <= 0xDF && Tail(b)
    ensures 0x80 <= Scalar2(a, b) <= 0x7FF && Two(Scalar2(a, b)) == (a, b)
  {
  }

  lemma ThreeBack(a: bv8, b: bv8, c: bv8)
    requires 0xE0 <= a <= 0xEF && Tail(b) && Tail(c)
    ensures Three(Scalar3(a, b, c)) == (a, b, c)
  {
  }

  lemma ThreeRange(a: bv8, b: bv8, c: bv8)
    requires 0xE0 <= a <= 0xEF && Tail(b) && Tail(c)
    requires a == 0xE0 ==> 0xA0 <= b
    requires a == 0xED ==> b <= 0x9F
    ensures 0x800 <= Scalar3(a, b, c) <= 0xFFFF && IsScalar(Scalar3(a, b, c))
  {
  }

  lemma FourBack(a: bv8, b: bv8, c: bv8, d: bv8)
    requires 0xF0 <= a <= 0xF4 && Tail(b) && Tail(c) && Tail(d)
    ensures Four(Scalar4(a, b, c, d)) == (a, b, c, d)
  {
  }

  lemma FourRange(a: bv8, b: bv8, c: bv8, d: bv8)
    requires 0xF0 <= a <= 0xF4 && Tail(b) && Tail(c) && Tail(d)
    requires a == 0xF0 ==> 0x90 <= b
    requires a == 0xF4 ==> b <= 0x8F
    ensures 0x10000 <= Scalar4(a, b, c, d) <= 0x10FFFF
  {
  }

  /** And encoding the number of a character gives the character back. */
  lemma ScalarReencoded(s: seq<bv8>)
    requires Utf8Char(s)
    ensures IsScalar(Scalar(s)) && Encoded(Scalar(s)) == s
  {
    Leads(s);
    assert |s| == 1 ==> Scalar(s) == s[0] as bv32;
    assert |s| == 2 ==> Scalar(s) == Scalar2(s[0], s[1]);
    assert |s| == 3 ==> Scalar(s) == Scalar3(s[0], s[1], s[2]);
    assert |s| == 4 ==> Scalar(s) == Scalar4(s[0], s[1], s[2], s[3]);
    hide *;
    if |s| == 1 {
      OneBack(s[0]);
      Size1(Scalar(s));
    } else if |s| == 2 {
      TwoBack(s[0], s[1]);
      Size2(Scalar(s));
    } else if |s| == 3 {
      ThreeBack(s[0], s[1], s[2]);
      ThreeRange(s[0], s[1], s[2]);
      Size3(Scalar(s));
    } else {
      FourBack(s[0], s[1], s[2], s[3]);
      FourRange(s[0], s[1], s[2], s[3]);
      Size4(Scalar(s));
    }
  }

  lemma Size1(c: bv32)
    requires c <= 0x7F
    ensures Encoded(c) == [Byte(c)] && IsScalar(c)
  {
    hide Byte;
  }

  lemma Size2(c: bv32)
    requires 0x80 <= c <= 0x7FF
    ensures Encoded(c) == [Two(c).0, Two(c).1] && IsScalar(c)
  {
    hide Two;
  }

  lemma Size3(c: bv32)
    requires 0x800 <= c <= 0xFFFF
    ensures Encoded(c) == [Three(c).0, Three(c).1, Three(c).2]
  {
    hide Three;
  }

  lemma Size4(c: bv32)
    requires 0x10000 <= c <= 0x10FFFF
    ensures Encoded(c) == [Four(c).0, Four(c).1, Four(c).2, Four(c).3] && IsScalar(c)
  {
    hide Four;
  }

  lemma Leads(s: seq<bv8>)
    requires Utf8Char(s)
    ensures 1 <= |s| <= 4
    ensures |s| == 1 ==> s[0] <= 0x7F
    ensures |s| == 2 ==> 0xC2 <= s[0] <= 0xDF && Tail(s[1])
    ensures |s| == 3 ==>
              && 0xE0 <= s[0] <= 0xEF && Tail(s[1]) && Tail(s[2])
              && (s[0] == 0xE0 ==> 0xA0 <= s[1]) && (s[0] == 0xED ==> s[1] <= 0x9F)
    ensures |s| == 4 ==>
              && 0xF0 <= s[0] <= 0xF4 && Tail(s[1]) && Tail(s[2]) && Tail(s[3])
              && (s[0] == 0xF0 ==> 0x90 <= s[1]) && (s[0] == 0xF4 ==> s[1] <= 0x8F)
  {
  }

  /** How many bytes are taken, by the first. */
  function Length(first: bv8): (n: nat)
    ensures 1 <= n <= 4
  {
    if first < 0xC2 then 1
    else if first < 0xE0 then 2
    else if first < 0xF0 then 3
    else if first < 0xF5 then 4
    else 1
  }

  /** The bytes a decoder takes at a position. */
  function Taken(bytes: seq<bv8>, from: nat): seq<bv8> {
    Next(bytes, from, Length(At(bytes, from)))
  }

  /** No other number of bytes could be a character there. */
  lemma OnlyLength(bytes: seq<bv8>, from: nat, n: nat)
    requires Utf8Char(Next(bytes, from, n))
    ensures n == Length(At(bytes, from))
  {
    var s := Next(bytes, from, n);
    Leads(s);
    assert s[0] == At(bytes, from);
    hide Utf8Char, Tail;
  }

  /** The test of a byte against a mask of classes. */
  predicate Passes(c: bv8, mask: bv8) {
    GetRange(c) & mask != 0
  }

  /** What the masks in the decoder let through. */
  lemma MaskMeaning(c: bv8)
    ensures Passes(c, 0x70) <==> Tail(c)
    ensures Passes(c, 0x50) <==> 0x80 <= c <= 0x9F
    ensures Passes(c, 0x10) <==> 0x80 <= c <= 0x8F
    ensures Passes(c, 0x20) <==> 0xA0 <= c <= 0xBF
    ensures Passes(c, 0x60) <==> 0x90 <= c <= 0xBF
  {
    GetRangeMeaning(c);
    hide GetRange;
  }

  /** The decoder's switch, by the first byte. */
  lemma ClassMeaning(c: bv8)
    ensures GetRange(c) == 2 <==> 0xC2 <= c <= 0xDF
    ensures GetRange(c) == 10 <==> c == 0xE0
    ensures GetRange(c) == 3 <==> 0xE1 <= c <= 0xEF && c != 0xED
    ensures GetRange(c) == 4 <==> c == 0xED
    ensures GetRange(c) == 11 <==> c == 0xF0
    ensures GetRange(c) == 6 <==> 0xF1 <= c <= 0xF3
    ensures GetRange(c) == 5 <==> c == 0xF4
  {
    GetRangeMeaning(c);
    hide GetRange;
  }

  /** The first byte's own bits. */
  function FirstBits(type_: bv8, c: bv8): bv32 {
    if type_ >= 32 then 0 else ((0xFF as bv32) >> type_) & (c as bv32)
  }

  lemma FirstBitsMeaning(c: bv8)
    ensures GetRange(c) == 2 ==> FirstBits(2, c) == (c & 0x1F) as bv32
    ensures GetRange(c) == 10 ==> FirstBits(10, c) == (c & 0x0F) as bv32
    ensures GetRange(c) == 3 ==> FirstBits(3, c) == (c & 0x0F) as bv32
    ensures GetRange(c) == 4 ==> FirstBits(4, c) == (c & 0x0F) as bv32
    ensures GetRange(c) == 11 ==> FirstBits(11, c) == (c & 0x07) as bv32
    ensures GetRange(c) == 6 ==> FirstBits(6, c) == (c & 0x07) as bv32
    ensures GetRange(c) == 5 ==> FirstBits(5, c) == (c & 0x07) as bv32
  {
    ClassMeaning(c);
    hide GetRange;
  }

  /** Take a byte, append its bits, test it. */
  method Follow(is_: MemoryStream, codepoint: bv32, result: bool, mask: bv8)
    returns (codepoint': bv32, result': bool)
    requires is_.Valid()
    modifies is_
    ensures is_.Valid() && is_.taken == old(is_.taken) + 1
    ensures var c := At(is_.src, old(is_.taken));
            codepoint' == Append6(codepoint, c) && result' == (result && Passes(c, mask))
  {
    hide Append6, Passes;
    var c := is_.Take();
    codepoint' := Append6(codepoint, c);
    result' := result && Passes(c, mask);
  }

  /** Decoding succeeds exactly on the characters of section 4 of RFC 3629, and gives the
    * number of the character. */
  method Decode(is_: MemoryStream) returns (ok: bool, codepoint: bv32)
    requires is_.Valid()
    modifies is_
    ensures is_.Valid()
    ensures var s := Taken(is_.src, old(is_.taken));
            && is_.taken == old(is_.taken) + |s|
            && (ok <==> Utf8Char(s))
            && (ok ==> codepoint == Scalar(s))
  {
    ghost var s := Taken(is_.src, is_.taken);
    ghost var from := is_.taken;
    var c := is_.Take();
    ClassMeaning(c);
    FirstBitsMeaning(c);
    assert s[0] == c;
    if c & 0x80 == 0 {
      return true, c as bv32;
    }
    var type_ := GetRange(c);
    codepoint := FirstBits(type_, c);
    ok := true;
    hide GetRange, FirstBits, Append6, Passes;
    if type_ == 2 {
      codepoint, ok := Follow(is_, codepoint, ok, 0x70);
      MaskMeaning(s[1]);
    } else if type_ == 3 {
      codepoint, ok := Follow(is_, codepoint, ok, 0x70);
      codepoint, ok := Follow(is_, codepoint, ok, 0x70);
      MaskMeaning(s[1]);
      MaskMeaning(s[2]);
    } else if type_ == 4 {
      codepoint, ok := Follow(is_, codepoint, ok, 0x50);
      codepoint, ok := Follow(is_, codepoint, ok, 0x70);
      MaskMeaning(s[1]);
      MaskMeaning(s[2]);
    } else if type_ == 5 {
      codepoint, ok := Follow(is_, codepoint, ok, 0x10);
      codepoint, ok := Follow(is_, codepoint, ok, 0x70);
      codepoint, ok := Follow(is_, codepoint, ok, 0x70);
      MaskMeaning(s[1]);
      MaskMeaning(s[2]);
      MaskMeaning(s[3]);
    } else if type_ == 6 {
      codepoint, ok := Follow(is_, codepoint, ok, 0x70);
      codepoint, ok := Follow(is_, codepoint, ok, 0x70);
      codepoint, ok := Follow(is_, codepoint, ok, 0x70);
      MaskMeaning(s[1]);
      MaskMeaning(s[2]);
      MaskMeaning(s[3]);
    } else if type_ == 10 {
      codepoint, ok := Follow(is_, codepoint, ok, 0x20);
      codepoint, ok := Follow(is_, codepoint, ok, 0x70);
      MaskMeaning(s[1]);
      MaskMeaning(s[2]);
    } else if type_ == 11 {
      codepoint, ok := Follow(is_, codepoint, ok, 0x60);
      codepoint, ok := Follow(is_, codepoint, ok, 0x70);
      codepoint, ok := Follow(is_, codepoint, ok, 0x70);
      MaskMeaning(s[1]);
      MaskMeaning(s[2]);
      MaskMeaning(s[3]);
    } else {
      ok := false;
    }
  }

  /** Validation gives the verdict of decoding, and copies the bytes that decoding takes. */
  method Validate(is_: MemoryStream, os: Output<bv8>) returns (ok: bool)
    requires is_.Valid()
    modifies is_, os
    ensures is_.Valid()
    ensures var s := Taken(is_.src, old(is_.taken));
            && is_.taken == old(is_.taken) + |s|
            && (ok <==> Utf8Char(s))
            && os.written == old(os.written) + s
  {
    ghost var s := Taken(is_.src, is_.taken);
    ghost var before, from := os.written, is_.taken;
    assert before + Next(is_.src, from, 0) == before;
    var c := Copy(is_, os, before, from);
    ClassMeaning(c);
    assert s[0] == c;
    if c & 0x80 == 0 {
      return true;
    }
    var type_ := GetRange(c);
    ok := true;
    hide GetRange, Passes, Next;
    if type_ == 2 {
      ok := CopyTested(is_, os, ok, before, from, 0x70);
      MaskMeaning(s[1]);
    } else if type_ == 3 {
      ok := CopyTested(is_, os, ok, before, from, 0x70);
      ok := CopyTested(is_, os, ok, before, from, 0x70);
      MaskMeaning(s[1]);
      MaskMeaning(s[2]);
    } else if type_ == 4 {
      ok := CopyTested(is_, os, ok, before, from, 0x50);
      ok := CopyTested(is_, os, ok, before, from, 0x70);
      MaskMeaning(s[1]);
      MaskMeaning(s[2]);
    } else if type_ == 5 {
      ok := CopyTested(is_, os, ok, before, from, 0x10);
      ok := CopyTested(is_, os, ok, before, from, 0x70);
      ok := CopyTested(is_, os, ok, before, from, 0x70);
      MaskMeaning(s[1]);
      MaskMeaning(s[2]);
      MaskMeaning(s[3]);
    } else if type_ == 6 {
      ok := CopyTested(is_, os, ok, before, from, 0x70);
      ok := CopyTested(is_, os, ok, before, from, 0x70);
      ok := CopyTested(is_, os, ok, before, from, 0x70);
      MaskMeaning(s[1]);
      MaskMeaning(s[2]);
      MaskMeaning(s[3]);
    } else if type_ == 10 {
      ok := CopyTested(is_, os, ok, before, from, 0x20);
      ok := CopyTested(is_, os, ok, before, from, 0x70);
      MaskMeaning(s[1]);
      MaskMeaning(s[2]);
    } else if type_ == 11 {
      ok := CopyTested(is_, os, ok, before, from, 0x60);
      ok := CopyTested(is_, os, ok, before, from, 0x70);
      ok := CopyTested(is_, os, ok, before, from, 0x70);
      MaskMeaning(s[1]);
      MaskMeaning(s[2]);
      MaskMeaning(s[3]);
    } else {
      ok := false;
    }
  }

  /** Copy a byte; what has been copied is what has been taken since `from`. */
  method Copy(is_: MemoryStream, os: Output<bv8>, ghost before: seq<bv8>, ghost from: nat) returns (c: bv8)
    requires is_.Valid() && from <= is_.taken
    requires os.written == before + Next(is_.src, from, is_.taken - from)
    modifies is_, os
    ensures is_.Valid() && is_.taken == old(is_.taken) + 1
    ensures c == At(is_.src, old(is_.taken))
    ensures os.written == before + Next(is_.src, from, is_.taken - from)
  {
    ghost var n := is_.taken - from;
    c := is_.Take();
    os.Put(c);
    assert Next(is_.src, from, n + 1) == Next(is_.src, from, n) + [c];
  }

  method CopyTested(is_: MemoryStream, os: Output<bv8>, result: bool, ghost before: seq<bv8>, ghost from: nat, mask: bv8)
    returns (result': bool)
    requires is_.Valid() && from <= is_.taken
    requires os.written == before + Next(is_.src, from, is_.taken - from)
    modifies is_, os
    ensures is_.Valid() && is_.taken == old(is_.taken) + 1
    ensures result' == (result && Passes(At(is_.src, old(is_.taken)), mask))
    ensures os.written == before + Next(is_.src, from, is_.taken - from)
  {
    hide Passes;
    var c := Copy(is_, os, before, from);
    result' := result && Passes(c, mask);
  }

  method Encode(os: Output<bv8>, codepoint: bv32)
    requires codepoint <= 0x10FFFF
    modifies os
    ensures os.written == old(os.written) + Encoded(codepoint)
  {
    hide Byte;
    if codepoint <= 0x7F {
      os.Put(Byte(codepoint));
    } else if codepoint <= 0x7FF {
      os.Put(Byte(0xC0 | ((codepoint >> 6) & 0xFF)));
      os.Put(Byte(0x80 | (codepoint & 0x3F)));
    } else if codepoint <= 0xFFFF {
      os.Put(Byte(0xE0 | ((codepoint >> 12) & 0xFF)));
      os.Put(Byte(0x80 | ((codepoint >> 6) & 0x3F)));
      os.Put(Byte(0x80 | (codepoint & 0x3F)));
    } else {
      os.Put(Byte(0xF0 | ((codepoint >> 18) & 0xFF)));
      os.Put(Byte(0x80 | ((codepoint >> 12) & 0x3F)));
      os.Put(Byte(0x80 | ((codepoint >> 6) & 0x3F)));
      os.Put(Byte(0x80 | (codepoint & 0x3F)));
    }
  }

  /** What the decoder answers at a position of a stream. */
  function Decoding(bytes: seq<bv8>, from: nat): Option<bv32> {
    var s := Taken(bytes, from);
    if Utf8Char(s) then Some(Scalar(s)) else None
  }

  /** Encoded anywhere in a stream, a scalar value is decoded to itself, taking just its
    * bytes; a surrogate is not. */
  lemma EncodeDecode(before: seq<bv8>, codepoint: bv32, after: seq<bv8>)
    requires codepoint <= 0x10FFFF
    ensures var bytes := before + Encoded(codepoint) + after;
            && (IsScalar(codepoint) ==>
                  && Taken(bytes, |before|) == Encoded(codepoint)
                  && Decoding(bytes, |before|) == Some(codepoint))
            && (!IsScalar(codepoint) ==> Decoding(bytes, |before|) == None)
  {
    var bytes, s := before + Encoded(codepoint) + after, Encoded(codepoint);
    EncodedIsUtf8(codepoint);
    EncodedLength(codepoint);
    hide Encoded, Utf8Char, Scalar, IsScalar;
    forall i | 0 <= i < |s| ensures At(bytes, |before| + i) == s[i] {
      assert bytes[|before| + i] == s[i];
    }
    assert Next(bytes, |before|, |s|) == s;
    assert At(bytes, |before|) == s[0];
  }

  /** The decoder takes as many bytes as the encoder puts, even for a surrogate. */
  lemma EncodedLength(codepoint: bv32)
    requires codepoint <= 0x10FFFF
    ensures |Encoded(codepoint)| == Length(Encoded(codepoint)[0])
  {
    hide Byte, Two, Three, Four;
    if codepoint <= 0x7F {
      OneByte(codepoint);
    } else if codepoint <= 0x7FF {
      TwoBytes(codepoint);
    } else if codepoint <= 0xFFFF {
      ThreeBytes(codepoint);
    } else {
      FourBytes(codepoint);
    }
  }

  /** What was decoded can be encoded, and gives the bytes that were taken. */
  lemma DecodeEncode(bytes: seq<bv8>, from: nat)
    requires Decoding(bytes, from).Some?
    ensures IsScalar(Decoding(bytes, from).value)
    ensures Encoded(Decoding(bytes, from).value) == Taken(bytes, from)
  {
    ScalarReencoded(Taken(bytes, from));
    hide Encoded, Utf8Char, Scalar, IsScalar;
  }

  // ---------- UTF-16 ----------

  predicate High(u: bv16) {
    0xD800 <= u <= 0xDBFF
  }

  predicate Low(u: bv16) {
    0xDC00 <= u <= 0xDFFF
  }

  /** One character: a unit that is no surrogate, or a pair of surrogates. */
  predicate Utf16Char(s: seq<bv16>) {
    (|s| == 1 && !High(s[0]) && !Low(s[0])) || (|s| == 2 && High(s[0]) && Low(s[1]))
  }

  function Unit(x: bv32): bv16 {
    (x & 0xFFFF) as bv16
  }

  /** The ten bits a surrogate carries. */
  function Ten(u: bv16): bv32 {
    (u as bv32) & 0x3FF
  }

  function Joined(top: bv32, bottom: bv32): bv32 {
    ((top << 10) | bottom) + 0x10000
  }

  function FromPair(high: bv16, low: bv16): bv32 {
    Joined(Ten(high), Ten(low))
  }

  function Scalar16(s: seq<bv16>): bv32
    requires 1 <= |s| <= 2
  {
    if |s| == 1 then s[0] as bv32 else FromPair(s[0], s[1])
  }

  function HighOf(codepoint: bv32): bv16 {
    Upper((codepoint - 0x10000) >> 10)
  }

  function LowOf(codepoint: bv32): bv16 {
    Lower((codepoint - 0x10000) & 0x3FF)
  }

  function Upper(top: bv32): bv16 {
    Unit(top | 0xD800)
  }

  function Lower(bottom: bv32): bv16 {
    Unit(bottom | 0xDC00)
  }

  function Encoded16(codepoint: bv32): seq<bv16> {
    if codepoint <= 0xFFFF then [Unit(codepoint)] else [HighOf(codepoint), LowOf(codepoint)]
  }

  function At16(units: seq<bv16>, k: nat): bv16 {
    if k < |units| then units[k] else 0
  }

  /** The units a decoder takes: two if the first may begin a pair. */
  function Taken16(units: seq<bv16>, from: nat): seq<bv16> {
    if High(At16(units, from)) then [At16(units, from), At16(units, from + 1)] else [At16(units, from)]
  }

  lemma OneUnit(u: bv16)
    ensures Utf16Char([u]) <==> Plain(u)
    ensures Scalar16([u]) == u as bv32
  {
    SurrogateTests(u);
    hide High, Low, Plain;
  }

  lemma TwoUnits(high: bv16, low: bv16)
    ensures Utf16Char([high, low]) <==> High(high) && Low(low)
    ensures Scalar16([high, low]) == FromPair(high, low)
  {
    hide High, Low, FromPair;
  }

  /** The decoder, from position `from` on; it answers where it has stopped. Past the end there
    * are NULs. */
  method Decode16(units: seq<bv16>, from: nat) returns (ok: bool, codepoint: bv32, next: nat)
    ensures var s := Taken16(units, from);
            && next == from + |s|
            && (ok <==> Utf16Char(s))
            && (ok ==> codepoint == Scalar16(s))
  {
    hide At16, High, Low, Plain, UpToHigh, FromPair, Utf16Char, Scalar16;
    var c := At16(units, from);
    next, codepoint := from + 1, 0;
    SurrogateTests(c);
    OneUnit(c);
    TwoUnits(c, At16(units, from + 1));
    if Plain(c) {
      return true, c as bv32, next;
    } else if UpToHigh(c) {
      var high := c;
      c := At16(units, next);
      next := next + 1;
      codepoint := FromPair(high, c);
      ok := Low(c);
    } else {
      ok := false;
    }
  }

  /** The decoder's first two tests. */
  predicate Plain(c: bv16) {
    c < 0xD800 || c > 0xDFFF
  }

  predicate UpToHigh(c: bv16) {
    c <= 0xDBFF
  }

  lemma SurrogateTests(c: bv16)
    ensures Plain(c) <==> !High(c) && !Low(c)
    ensures High(c) ==> !Low(c)
    ensures !Plain(c) ==> (UpToHigh(c) <==> High(c))
  {
  }

  /** The twenty bits of a pair, ten in each half. */
  lemma Halves(c: bv32)
    requires 0x10000 <= c <= 0x10FFFF
    ensures ((c - 0x10000) >> 10) & 0xFFFF_FC00 == 0
    ensures ((c - 0x10000) & 0x3FF) & 0xFFFF_FC00 == 0
    ensures Joined((c - 0x10000) >> 10, (c - 0x10000) & 0x3FF) == c
  {
  }

  lemma UpperHalf(ten: bv32)
    requires ten & 0xFFFF_FC00 == 0
    ensures High(Upper(ten)) && Ten(Upper(ten)) == ten
  {
  }

  lemma LowerHalf(ten: bv32)
    requires ten & 0xFFFF_FC00 == 0
    ensures Low(Lower(ten)) && Ten(Lower(ten)) == ten
  {
  }

  lemma PairOf(c: bv32)
    requires 0x10000 <= c <= 0x10FFFF
    ensures High(HighOf(c)) && Low(LowOf(c)) && FromPair(HighOf(c), LowOf(c)) == c
  {
    Halves(c);
    UpperHalf((c - 0x10000) >> 10);
    LowerHalf((c - 0x10000) & 0x3FF);
    hide High, Low, Upper, Lower, Ten, Joined;
  }

  lemma SingleOf(c: bv32)
    requires c <= 0xFFFF
    ensures Unit(c) as bv32 == c
    ensures 0xD800 <= c <= 0xDFFF <==> High(Unit(c)) || Low(Unit(c))
  {
  }

  /** Encoding a scalar value gives one character, with that value; for a surrogate the
    * library's assertion fails, and what would be written is no character. */
  lemma EncodedIsUtf16(codepoint: bv32)
    requires codepoint <= 0x10FFFF
    ensures Utf16Char(Encoded16(codepoint)) <==> IsScalar(codepoint)
    ensures Scalar16(Encoded16(codepoint)) == codepoint
  {
    if codepoint <= 0xFFFF {
      SingleOf(codepoint);
      hide Unit, High, Low;
    } else {
      PairOf(codepoint);
      hide HighOf, LowOf, FromPair, High, Low;
    }
  }

  lemma HighBack(high: bv16)
    requires High(high)
    ensures Ten(high) & 0xFFFF_FC00 == 0 && Upper(Ten(high)) == high
  {
  }

  lemma LowBack(low: bv16)
    requires Low(low)
    ensures Ten(low) & 0xFFFF_FC00 == 0 && Lower(Ten(low)) == low
  {
  }

  lemma JoinedBack(top: bv32, bottom: bv32)
    requires top & 0xFFFF_FC00 == 0 && bottom & 0xFFFF_FC00 == 0
    ensures 0x10000 <= Joined(top, bottom) <= 0x10FFFF
    ensures (Joined(top, bottom) - 0x10000) >> 10 == top
    ensures (Joined(top, bottom) - 0x10000) & 0x3FF == bottom
  {
  }

  lemma PairBack(high: bv16, low: bv16)
    requires High(high) && Low(low)
    ensures var c := FromPair(high, low);
            0x10000 <= c <= 0x10FFFF && HighOf(c) == high && LowOf(c) == low
  {
    HighBack(high);
    LowBack(low);
    JoinedBack(Ten(high), Ten(low));
    hide High, Low, Upper, Lower, Ten, Joined;
  }

  lemma SingleBack(u: bv16)
    ensures u as bv32 <= 0xFFFF && Unit(u as bv32) == u
    ensures IsScalar(u as bv32) <==> !High(u) && !Low(u)
  {
  }

  lemma Scalar16Reencoded(s: seq<bv16>)
    requires Utf16Char(s)
    ensures IsScalar(Scalar16(s)) && Encoded16(Scalar16(s)) == s
  {
    if |s| == 1 {
      SingleBack(s[0]);
      hide Unit, High, Low;
    } else {
      PairBack(s[0], s[1]);
      hide HighOf, LowOf, FromPair, High, Low;
    }
  }

  /** Encoded anywhere in a text of units, a scalar value is decoded to itself, and what is
    * decoded encodes to the units taken. */
  lemma EncodeDecode16(before: seq<bv16>, codepoint: bv32, after: seq<bv16>)
    requires IsScalar(codepoint)
    ensures var units := before + Encoded16(codepoint) + after;
            && Taken16(units, |before|) == Encoded16(codepoint)
            && Utf16Char(Taken16(units, |before|)) && Scalar16(Taken16(units, |before|)) == codepoint
  {
    var units, s := before + Encoded16(codepoint) + after, Encoded16(codepoint);
    EncodedIsUtf16(codepoint);
    assert |s| == 1 ==> !High(s[0]);
    assert |s| == 2 ==> High(s[0]);
    assert 1 <= |s| <= 2;
    hide Encoded16, High, Low, Scalar16, Utf16Char, IsScalar;
    assert forall i | 0 <= i < |s| :: units[|before| + i] == s[i];
    assert Taken16(units, |before|) == s;
  }

  lemma DecodeEncode16(units: seq<bv16>, from: nat)
    requires Utf16Char(Taken16(units, from))
    ensures IsScalar(Scalar16(Taken16(units, from)))
    ensures Encoded16(Scalar16(Taken16(units, from))) == Taken16(units, from)
  {
    Scalar16Reencoded(Taken16(units, from));
    hide *;
  }
}
