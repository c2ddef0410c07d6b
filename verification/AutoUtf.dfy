/** Streams that write and read text in one of five encodings, the reader finding out which. */
module AutoUtf {
  import opened ReadStreams
  import opened Utf
  import opened Wrappers

  datatype UtfType = UTF8 | UTF16LE | UTF16BE | UTF32LE | UTF32BE

  // ---------- Units and bytes ----------

  function Width(t: UtfType): nat {
    match t
    case UTF8 => 1
    case UTF16LE => 2
    case UTF16BE => 2
    case UTF32LE => 4
    case UTF32BE => 4
  }

  /** The bytes of `n` units. */
  function Size(t: UtfType, n: nat): nat {
    match t
    case UTF8 => n
    case UTF16LE => 2 * n
    case UTF16BE => 2 * n
    case UTF32LE => 4 * n
    case UTF32BE => 4 * n
  }

  /** Whether a unit is one of the encoding's. */
  predicate Fits(t: UtfType, c: bv32) {
    match t
    case UTF8 => c & 0xFFFF_FF00 == 0
    case UTF16LE => c & 0xFFFF_0000 == 0
    case UTF16BE => c & 0xFFFF_0000 == 0
    case UTF32LE => true
    case UTF32BE => true
  }

  function Put(t: UtfType, c: bv32): (bytes: seq<bv8>)
    ensures |bytes| == Width(t)
  {
    match t
    case UTF8 => [Byte(c)]
    case UTF16LE => [Byte(c), Byte(c >> 8)]
    case UTF16BE => [Byte(c >> 8), Byte(c)]
    case UTF32LE => [Byte(c), Byte(c >> 8), Byte(c >> 16), Byte(c >> 24)]
    case UTF32BE => [Byte(c >> 24), Byte(c >> 16), Byte(c >> 8), Byte(c)]
  }

  function PutBOM(t: UtfType): seq<bv8> {
    match t
    case UTF8 => [0xEF, 0xBB, 0xBF]
    case UTF16LE => [0xFF, 0xFE]
    case UTF16BE => [0xFE, 0xFF]
    case UTF32LE => [0xFF, 0xFE, 0x00, 0x00]
    case UTF32BE => [0x00, 0x00, 0xFE, 0xFF]
  }

  function Join2(low: bv8, high: bv8): bv32 {
    (low as bv32) | ((high as bv32) << 8)
  }

  function Join4(a: bv8, b: bv8, c: bv8, d: bv8): bv32 {
    (a as bv32) | ((b as bv32) << 8) | ((c as bv32) << 16) | ((d as bv32) << 24)
  }

  /** The unit whose bytes begin at a position. */
  function Take(t: UtfType, bytes: seq<bv8>, k: nat): bv32 {
    match t
    case UTF8 => At(bytes, k) as bv32
    case UTF16LE => Join2(At(bytes, k), At(bytes, k + 1))
    case UTF16BE => Join2(At(bytes, k + 1), At(bytes, k))
    case UTF32LE => Join4(At(bytes, k), At(bytes, k + 1), At(bytes, k + 2), At(bytes, k + 3))
    case UTF32BE => Join4(At(bytes, k + 3), At(bytes, k + 2), At(bytes, k + 1), At(bytes, k))
  }

  lemma ByteBack(c: bv32)
    requires c & 0xFFFF_FF00 == 0
    ensures Byte(c) as bv32 == c
  {
  }

  lemma Join2Back(c: bv32)
    requires c & 0xFFFF_0000 == 0
    ensures Join2(Byte(c), Byte(c >> 8)) == c
  {
  }

  lemma Join4Back(c: bv32)
    ensures Join4(Byte(c), Byte(c >> 8), Byte(c >> 16), Byte(c >> 24)) == c
  {
  }

  /** A unit is read back from the bytes it was written as, wherever they lie. */
  lemma PutTake(t: UtfType, c: bv32, bytes: seq<bv8>, k: nat)
    requires Fits(t, c)
    requires forall i | 0 <= i < Width(t) :: At(bytes, k + i) == Put(t, c)[i]
    ensures Take(t, bytes, k) == c
  {
    assert At(bytes, k + 0) == Put(t, c)[0];
    assert Width(t) >= 2 ==> At(bytes, k + 1) == Put(t, c)[1];
    assert Width(t) == 4 ==> At(bytes, k + 2) == Put(t, c)[2] && At(bytes, k + 3) == Put(t, c)[3];
    hide *;
    match t {
      case UTF8 => PutTake8(c, bytes, k);
      case UTF16LE => PutTake16(t, c, bytes, k);
      case UTF16BE => PutTake16(t, c, bytes, k);
      case UTF32LE => PutTake32(t, c, bytes, k);
      case UTF32BE => PutTake32(t, c, bytes, k);
    }
  }

  lemma PutTake8(c: bv32, bytes: seq<bv8>, k: nat)
    requires Fits(UTF8, c) && At(bytes, k) == Put(UTF8, c)[0]
    ensures Take(UTF8, bytes, k) == c
  {
    ByteBack(c);
    hide Byte, At;
  }

  lemma PutTake16(t: UtfType, c: bv32, bytes: seq<bv8>, k: nat)
    requires (t == UTF16LE || t == UTF16BE) && Fits(t, c)
    requires At(bytes, k) == Put(t, c)[0] && At(bytes, k + 1) == Put(t, c)[1]
    ensures Take(t, bytes, k) == c
  {
    Join2Back(c);
    hide Byte, At, Join2;
  }

  lemma PutTake32(t: UtfType, c: bv32, bytes: seq<bv8>, k: nat)
    requires t == UTF32LE || t == UTF32BE
    requires At(bytes, k) == Put(t, c)[0] && At(bytes, k + 1) == Put(t, c)[1]
    requires At(bytes, k + 2) == Put(t, c)[2] && At(bytes, k + 3) == Put(t, c)[3]
    ensures Take(t, bytes, k) == c
  {
    Join4Back(c);
    hide Byte, At, Join4;
  }

  /** Past the end, every unit is NUL. */
  lemma TakeNothing(t: UtfType, bytes: seq<bv8>, k: nat)
    requires |bytes| <= k
    ensures Take(t, bytes, k) == 0
  {
    assert Join2(0, 0) == 0 && Join4(0, 0, 0, 0) == 0;
    hide Join2, Join4;
  }

  // ---------- Writing ----------

  function Written(t: UtfType, units: seq<bv32>): (bytes: seq<bv8>)
    ensures |bytes| == Size(t, |units|)
  {
    if units == [] then [] else Written(t, units[..|units| - 1]) + Put(t, units[|units| - 1])
  }

  lemma {:induction false} WrittenAt(t: UtfType, units: seq<bv32>, k: nat, i: nat)
    requires k < |units| && i < Width(t)
    ensures Size(t, k) + i < |Written(t, units)|
    ensures Written(t, units)[Size(t, k) + i] == Put(t, units[k])[i]
  {
    hide Put;
    if k < |units| - 1 {
      WrittenAt(t, units[..|units| - 1], k, i);
    }
  }

  /** A writer, with or without a byte order mark first. */
  class AutoUTFOutputStream {
    const os: Output<bv8>
    const type_: UtfType

    constructor (os: Output<bv8>, t: UtfType, putBOM: bool)
      modifies os
      ensures this.os == os && type_ == t
      ensures os.written == old(os.written) + if putBOM then PutBOM(t) else []
    {
      this.os, type_ := os, t;
      new;
      if putBOM {
        var mark := PutBOM(t);
        var i := 0;
        assert old(os.written) + mark[..0] == old(os.written);
        while i < |mark|
          invariant 0 <= i <= |mark|
          invariant os.written == old(os.written) + mark[..i]
        {
          os.Put(mark[i]);
          i := i + 1;
        }
        assert mark[..i] == mark;
      }
    }

    method PutUnit(c: bv32)
      modifies os
      ensures os.written == old(os.written) + Put(type_, c)
    {
      assert Put(UTF8, c) == [Byte(c)];
      assert Put(UTF16LE, c) == [Byte(c), Byte(c >> 8)] && Put(UTF16BE, c) == [Byte(c >> 8), Byte(c)];
      assert Put(UTF32LE, c) == [Byte(c), Byte(c >> 8), Byte(c >> 16), Byte(c >> 24)];
      assert Put(UTF32BE, c) == [Byte(c >> 24), Byte(c >> 16), Byte(c >> 8), Byte(c)];
      hide *;
      match type_ {
        case UTF8 => os.Put(Byte(c));
        case UTF16LE => Put2(Byte(c), Byte(c >> 8));
        case UTF16BE => Put2(Byte(c >> 8), Byte(c));
        case UTF32LE => Put4(Byte(c), Byte(c >> 8), Byte(c >> 16), Byte(c >> 24));
        case UTF32BE => Put4(Byte(c >> 24), Byte(c >> 16), Byte(c >> 8), Byte(c));
      }
    }

    method Put2(a: bv8, b: bv8)
      modifies os
      ensures os.written == old(os.written) + [a, b]
    {
      os.Put(a);
      os.Put(b);
    }

    method Put4(a: bv8, b: bv8, c: bv8, d: bv8)
      modifies os
      ensures os.written == old(os.written) + [a, b, c, d]
    {
      Put2(a, b);
      Put2(c, d);
    }
  }

  /** A position at the end stands for all after it. */
  lemma Saturates(bytes: seq<bv8>, k: nat)
    ensures At(bytes, Min(k, |bytes|)) == At(bytes, k)
  {
  }

  lemma SizeZero(t: UtfType)
    ensures Size(t, 0) == 0 && Size(t, 1) == Width(t)
  {
  }

  lemma SizeNext(t: UtfType, n: nat)
    ensures Size(t, n + 1) == Size(t, n) + Width(t)
  {
  }

  // ---------- Detection ----------

  datatype Detection = Detection(t: UtfType, hasBOM: bool)

  /** The byte order mark that four bytes begin with. */
  function MarkOf(a: bv8, b: bv8, c: bv8, d: bv8): Option<UtfType> {
    if a == 0x00 && b == 0x00 && c == 0xFE && d == 0xFF then Some(UTF32BE)
    else if a == 0xFF && b == 0xFE && c == 0x00 && d == 0x00 then Some(UTF32LE)
    else if a == 0xFE && b == 0xFF then Some(UTF16BE)
    else if a == 0xFF && b == 0xFE then Some(UTF16LE)
    else if a == 0xEF && b == 0xBB && c == 0xBF then Some(UTF8)
    else None
  }

  /** By a byte order mark, or else by which of the first four bytes are NUL. */
  function Detected(bytes: seq<bv8>, fallback: UtfType): Detection {
    if |bytes| < 4 then Detection(fallback, false)
    else
      match MarkOf(bytes[0], bytes[1], bytes[2], bytes[3])
      case Some(t) => Detection(t, true)
      case None => Detection(ByNuls(bytes[0] != 0, bytes[1] != 0, bytes[2] != 0, bytes[3] != 0, fallback), false)
  }

  /** Section 3 of RFC 4627. */
  function ByNuls(a: bool, b: bool, c: bool, d: bool, fallback: UtfType): UtfType {
    if !a && !b && !c && d then UTF32BE
    else if !a && b && !c && d then UTF16BE
    else if a && !b && !c && !d then UTF32LE
    else if a && !b && c && !d then UTF16LE
    else if a && b && c && d then UTF8
    else fallback
  }

  /** Where the text begins: after the mark, if there is one. */
  function Start(d: Detection): nat {
    if d.hasBOM then |PutBOM(d.t)| else 0
  }

  lemma StartWithin(bytes: seq<bv8>, fallback: UtfType)
    ensures Start(Detected(bytes, fallback)) <= |bytes|
  {
  }

  lemma Is32BE(a: bv8, b: bv8, c: bv8, d: bv8)
    ensures Join4(a, b, c, d) == 0xFFFE_0000 <==> a == 0x00 && b == 0x00 && c == 0xFE && d == 0xFF
  {
  }

  lemma Is32LE(a: bv8, b: bv8, c: bv8, d: bv8)
    ensures Join4(a, b, c, d) == 0x0000_FEFF <==> a == 0xFF && b == 0xFE && c == 0x00 && d == 0x00
  {
  }

  lemma Is16BE(a: bv8, b: bv8, c: bv8, d: bv8)
    ensures Join4(a, b, c, d) & 0xFFFF == 0xFFFE <==> a == 0xFE && b == 0xFF
  {
  }

  lemma Is16LE(a: bv8, b: bv8, c: bv8, d: bv8)
    ensures Join4(a, b, c, d) & 0xFFFF == 0xFEFF <==> a == 0xFF && b == 0xFE
  {
  }

  lemma Is8(a: bv8, b: bv8, c: bv8, d: bv8)
    ensures Join4(a, b, c, d) & 0xFF_FFFF == 0xBF_BBEF <==> a == 0xEF && b == 0xBB && c == 0xBF
  {
  }

  /** The tests of the first word are tests for the marks. */
  method FindMark(a: bv8, b: bv8, c: bv8, d: bv8) returns (mark: Option<UtfType>)
    ensures mark == MarkOf(a, b, c, d)
  {
    Is32BE(a, b, c, d);
    Is32LE(a, b, c, d);
    Is16BE(a, b, c, d);
    Is16LE(a, b, c, d);
    Is8(a, b, c, d);
    hide Join4;
    var bom := Join4(a, b, c, d);
    mark := None;
    if bom == 0xFFFE_0000 {
      mark := Some(UTF32BE);
    } else if bom == 0x0000_FEFF {
      mark := Some(UTF32LE);
    } else if bom & 0xFFFF == 0xFFFE {
      mark := Some(UTF16BE);
    } else if bom & 0xFFFF == 0xFEFF {
      mark := Some(UTF16LE);
    } else if bom & 0xFF_FFFF == 0xBF_BBEF {
      mark := Some(UTF8);
    }
  }

  function Pattern(a: bool, b: bool, c: bool, d: bool): int {
    (if a then 1 else 0) + (if b then 2 else 0) + (if c then 4 else 0) + (if d then 8 else 0)
  }

  /** A reader of the units of a file. `taken` counts them; one is always read ahead. */
  class AutoUTFInputStream {
    const is_: FileReadStream
    var type_: UtfType
    var hasBOM: bool
    var current: bv32
    ghost var taken: nat

    ghost predicate Valid()
      reads this, is_, is_.buffer
    {
      && is_.Valid()
      && current == Take(type_, is_.file, Start(Detection(type_, hasBOM)) + Size(type_, taken))
      && is_.Tell() == Min(Start(Detection(type_, hasBOM)) + Size(type_, taken + 1), |is_.file|)
    }

    /** The stream is at its beginning. */
    constructor (is_: FileReadStream, fallback: UtfType)
      requires is_.Valid() && is_.Tell() == 0 && is_.readCount == Min(is_.buffer.Length, |is_.file|)
      modifies is_, is_.buffer
      ensures this.is_ == is_ && Valid() && taken == 0
      ensures Detection(type_, hasBOM) == Detected(is_.file, fallback)
    {
      hide *;
      this.is_, type_, hasBOM, current, taken := is_, fallback, false, 0, 0;
      new;
      Open();
    }

    method Open()
      requires is_.Valid() && is_.Tell() == 0 && is_.readCount == Min(is_.buffer.Length, |is_.file|)
      requires !hasBOM && taken == 0
      modifies this`type_, this`hasBOM, this`current, is_, is_.buffer
      ensures Valid()
      ensures Detection(type_, hasBOM) == Detected(is_.file, old(type_))
    {
      hide Width, Size, Take, Start, Detected, FileReadStream.Valid, FileReadStream.Tell;
      DetectType();
      StartWithin(is_.file, old(type_));
      SizeZero(type_);
      current := TakeUnit();
    }

    method Skip(n: nat)
      requires is_.Valid()
      modifies is_, is_.buffer
      ensures is_.Valid() && is_.Tell() == Min(old(is_.Tell()) + n, |is_.file|)
    {
      var i := 0;
      while i < n
        invariant 0 <= i <= n
        invariant is_.Valid() && is_.Tell() == Min(old(is_.Tell()) + i, |is_.file|)
      {
        var c := is_.Take();
        i := i + 1;
      }
    }

    method DetectType()
      requires is_.Valid() && is_.Tell() == 0 && is_.readCount == Min(is_.buffer.Length, |is_.file|)
      requires !hasBOM
      modifies this`type_, this`hasBOM, is_, is_.buffer
      ensures Detection(type_, hasBOM) == Detected(is_.file, old(type_))
      ensures is_.Valid() && is_.Tell() == Start(Detection(type_, hasBOM))
    {
      assert is_.current == 0 && is_.buffer.Length >= 4;
      StartWithin(is_.file, type_);
      hide ByNuls, MarkOf, FileReadStream.Valid, FileReadStream.Tell;
      var four := is_.Peek4();
      if four.None? { return; }
      var c := four.value;
      assert c == [is_.file[0], is_.file[1], is_.file[2], is_.file[3]];
      var mark := FindMark(c[0], c[1], c[2], c[3]);
      if mark.Some? {
        type_, hasBOM := mark.value, true;
        Skip(|PutBOM(mark.value)|);
      } else {
        type_ := NulType(c, type_);
      }
    }

    /** By the pattern of NULs. */
    static method NulType(four: seq<bv8>, fallback: UtfType) returns (t: UtfType)
      requires |four| == 4
      ensures t == ByNuls(four[0] != 0, four[1] != 0, four[2] != 0, four[3] != 0, fallback)
    {
      var pattern := Pattern(four[0] != 0, four[1] != 0, four[2] != 0, four[3] != 0);
      t := fallback;
      if pattern == 0x08 {
        t := UTF32BE;
      } else if pattern == 0x0A {
        t := UTF16BE;
      } else if pattern == 0x01 {
        t := UTF32LE;
      } else if pattern == 0x05 {
        t := UTF16LE;
      } else if pattern == 0x0F {
        t := UTF8;
      }
    }

    /** The encoding's own `Take`: that many bytes make a unit. */
    method TakeUnit() returns (c: bv32)
      requires is_.Valid()
      modifies is_, is_.buffer
      ensures is_.Valid() && is_.Tell() == Min(old(is_.Tell()) + Width(type_), |is_.file|)
      ensures c == Take(type_, is_.file, old(is_.Tell()))
    {
      hide Join2, Join4, At, FileReadStream.Valid, FileReadStream.Tell;
      ghost var k := is_.Tell();
      Saturates(is_.file, k + 1);
      Saturates(is_.file, k + 2);
      Saturates(is_.file, k + 3);
      var a := is_.Take();
      if type_ == UTF8 { return a as bv32; }
      var b := is_.Take();
      if type_ == UTF16LE { return Join2(a, b); }
      if type_ == UTF16BE { return Join2(b, a); }
      var d := is_.Take();
      var e := is_.Take();
      if type_ == UTF32LE { return Join4(a, b, d, e); }
      return Join4(e, d, b, a);
    }

    /** The next unit of the text. */
    method TakeNext() returns (c: bv32)
      requires Valid()
      modifies this`current, this`taken, is_, is_.buffer
      ensures Valid() && taken == old(taken) + 1
      ensures c == Take(type_, is_.file, Start(Detection(type_, hasBOM)) + Size(type_, old(taken)))
    {
      hide Width, Size, Take, Start, Detected, FileReadStream.Valid, FileReadStream.Tell;
      c := current;
      SizeNext(type_, taken + 1);
      ghost var next := Start(Detection(type_, hasBOM)) + Size(type_, taken + 1);
      if |is_.file| < next {
        TakeNothing(type_, is_.file, next);
        TakeNothing(type_, is_.file, |is_.file|);
      }
      taken := taken + 1;
      current := TakeUnit();
    }
  }

  // ---------- The round trip ----------

  function Text(t: UtfType, units: seq<bv32>): seq<bv8> {
    PutBOM(t) + Written(t, units)
  }

  ghost predicate AllFit(t: UtfType, units: seq<bv32>) {
    forall k | 0 <= k < |units| :: Fits(t, units[k])
  }

  /** Two NULs after the mark of UTF-16LE make the mark of UTF-32LE. */
  lemma MarkBegins(t: UtfType, rest: seq<bv8>, fallback: UtfType)
    ensures Detected(PutBOM(t) + rest, fallback) == Detection(t, true)
       <==> |PutBOM(t) + rest| >= 4 && !(t == UTF16LE && rest[0] == 0 && rest[1] == 0)
  {
    hide ByNuls;
    var bytes := PutBOM(t) + rest;
    if |bytes| >= 4 {
      assert MarkOf(bytes[0], bytes[1], bytes[2], bytes[3])
          == Some(if t == UTF16LE && rest[0] == 0 && rest[1] == 0 then UTF32LE else t);
    }
  }

  /** What begins with a mark is detected by the mark, but for one case: the mark of UTF-16LE
    * and a NUL unit after it are the mark of UTF-32LE. And a text must have four bytes. */
  lemma DetectedByMark(t: UtfType, units: seq<bv32>, fallback: UtfType)
    requires AllFit(t, units)
    ensures Detected(Text(t, units), fallback) == Detection(t, true)
       <==> |Text(t, units)| >= 4 && !(t == UTF16LE && units[0] == 0)
  {
    MarkBegins(t, Written(t, units), fallback);
    hide Detected, Put, Written;
    if t == UTF16LE && |Text(t, units)| >= 4 {
      WrittenAt(t, units, 0, 0);
      WrittenAt(t, units, 0, 1);
      NulUnit(units[0]);
    }
  }

  lemma NulUnit(c: bv32)
    requires Fits(UTF16LE, c)
    ensures Put(UTF16LE, c)[0] == 0 && Put(UTF16LE, c)[1] == 0 <==> c == 0
  {
  }

  /** Whatever is written is read back unit for unit, and then NUL for ever. */
  lemma ReadBack(t: UtfType, units: seq<bv32>, k: nat)
    requires AllFit(t, units)
    ensures Take(t, Text(t, units), |PutBOM(t)| + Size(t, k)) == if k < |units| then units[k] else 0
  {
    var bytes := Text(t, units);
    var at := |PutBOM(t)| + Size(t, k);
    if k < |units| {
      forall i | 0 <= i < Width(t) ensures At(bytes, at + i) == Put(t, units[k])[i] {
        WrittenAt(t, units, k, i);
      }
      assert Fits(t, units[k]);
      hide *;
      PutTake(t, units[k], bytes, at);
    } else {
      assert |bytes| <= at;
      TakeNothing(t, bytes, at);
    }
  }

  /** Units, and then NUL for ever. */
  function UnitAt(units: seq<bv32>, k: nat): bv32 {
    if k < |units| then units[k] else 0
  }

  lemma WrittenMore(t: UtfType, units: seq<bv32>, k: nat, before: seq<bv8>)
    requires k < |units|
    ensures before + Written(t, units[..k]) + Put(t, units[k]) == before + Written(t, units[..k + 1])
  {
    assert units[..k + 1][..k] == units[..k];
    assert Written(t, units[..k + 1]) == Written(t, units[..k]) + Put(t, units[k]);
    hide Put, Written;
  }

  method WriteUnits(stream: AutoUTFOutputStream, units: seq<bv32>)
    modifies stream.os
    ensures stream.os.written == old(stream.os.written) + Written(stream.type_, units)
  {
    ghost var before := stream.os.written;
    assert units[..0] == [] && before + Written(stream.type_, []) == before;
    hide *;
    var k := 0;
    while k < |units|
      invariant 0 <= k <= |units|
      invariant stream.os.written == before + Written(stream.type_, units[..k])
    {
      WrittenMore(stream.type_, units, k, before);
      stream.PutUnit(units[k]);
      k := k + 1;
    }
    assert units[..k] == units;
  }

  /** A text with its mark, as a user of the output stream writes it. */
  method WriteText(t: UtfType, units: seq<bv32>) returns (file: seq<bv8>)
    ensures file == Text(t, units)
  {
    assert Text(t, units) == [] + PutBOM(t) + Written(t, units);
    hide *;
    var os := new Output<bv8>();
    var stream := new AutoUTFOutputStream(os, t, true);
    WriteUnits(stream, units);
    file := os.written;
  }

  /** The round trip of the two streams: whatever one writes with a mark, the other detects and
    * reads back unit for unit, and then NUL for ever, through a buffer of any size. */
  method WriteAndRead(t: UtfType, units: seq<bv32>, fallback: UtfType, buffer: array<bv8>, n: nat)
    returns (detected: UtfType, read: seq<bv32>)
    requires AllFit(t, units) && buffer.Length >= 4
    requires |Text(t, units)| >= 4 && !(t == UTF16LE && units[0] == 0)
    modifies buffer
    ensures detected == t
    ensures |read| == n && forall k | 0 <= k < n :: read[k] == UnitAt(units, k)
  {
    DetectedByMark(t, units, fallback);
    var file := WriteText(t, units);
    hide Text, Written, Detected, Put, PutBOM, Size, Width, Take, AllFit;
    var bytes := new FileReadStream(file, buffer);
    var stream := new AutoUTFInputStream(bytes, fallback);
    detected := stream.type_;
    read := ReadUnits(stream, t, units, n);
  }

  method ReadUnits(stream: AutoUTFInputStream, t: UtfType, units: seq<bv32>, n: nat) returns (read: seq<bv32>)
    requires stream.Valid() && stream.taken == 0 && AllFit(t, units)
    requires stream.is_.file == Text(t, units) && Detection(stream.type_, stream.hasBOM) == Detection(t, true)
    modifies stream`current, stream`taken, stream.is_, stream.is_.buffer
    ensures |read| == n && forall k | 0 <= k < n :: read[k] == UnitAt(units, k)
  {
    hide Text, Written, Detected, Put, PutBOM, Size, Width, Take, AllFit, AutoUTFInputStream.Valid;
    assert Start(Detection(t, true)) == |PutBOM(t)|;
    read := [];
    while |read| < n
      invariant |read| <= n && stream.Valid() && stream.taken == |read|
      invariant Detection(stream.type_, stream.hasBOM) == Detection(t, true)
      invariant forall k | 0 <= k < |read| :: read[k] == UnitAt(units, k)
    {
      ReadBack(t, units, |read|);
      var c := stream.TakeNext();
      read := read + [c];
    }
  }

  ghost predicate Marked(bytes: seq<bv8>) {
    exists t :: PutBOM(t) <= bytes
  }

  /** Without a mark the NULs among the first four bytes decide, by the patterns of section 3 of
    * RFC 4627; any other pattern, or fewer bytes, leave it at the encoding given. */
  lemma NulsDecide(bytes: seq<bv8>, fallback: UtfType)
    requires !Marked(bytes)
    ensures var d := Detected(bytes, fallback);
            && !d.hasBOM
            && (|bytes| < 4 ==> d.t == fallback)
            && (|bytes| >= 4 ==>
                  var nuls := set i | 0 <= i < 4 && bytes[i] == 0;
                  d.t == if nuls == {0, 1, 2} then UTF32BE
                         else if nuls == {1, 2, 3} then UTF32LE
                         else if nuls == {0, 2} then UTF16BE
                         else if nuls == {1, 3} then UTF16LE
                         else if nuls == {} then UTF8
                         else fallback)
  {
    assert !(PutBOM(UTF8) <= bytes) && !(PutBOM(UTF16LE) <= bytes) && !(PutBOM(UTF16BE) <= bytes);
    assert !(PutBOM(UTF32BE) <= bytes);
    if |bytes| >= 4 {
      var nuls := set i | 0 <= i < 4 && bytes[i] == 0;
      assert 0 in nuls <==> bytes[0] == 0;
      assert 1 in nuls <==> bytes[1] == 0;
      assert 2 in nuls <==> bytes[2] == 0;
      assert 3 in nuls <==> bytes[3] == 0;
    }
  }

  /** Without a mark, a JSON text in any of the encodings is detected as section 3 of RFC 4627
    * says: its first two characters are ASCII, and in UTF-8 it has no NUL in its first four. */
  lemma DetectedWithoutMark(t: UtfType, units: seq<bv32>, fallback: UtfType)
    requires AllFit(t, units) && |Written(t, units)| >= 4
    requires forall k | 0 <= k < |units| && (k < 2 || (t == UTF8 && k < 4)) :: units[k] != 0
    requires forall k | 0 <= k < |units| && k < 2 :: units[k] & 0xFFFF_FF80 == 0
    ensures Detected(Written(t, units), fallback) == Detection(t, false)
  {
    hide Byte, Written, Detected;
    if t == UTF8 {
      WrittenAt(t, units, 0, 0);
      WrittenAt(t, units, 1, 0);
      WrittenAt(t, units, 2, 0);
      WrittenAt(t, units, 3, 0);
      AsciiByte(units[0]);
      FullByte(units[1]);
      FullByte(units[2]);
      FullByte(units[3]);
    } else {
      WrittenAt(t, units, 0, 0);
      WrittenAt(t, units, 0, 1);
      AsciiBytes(units[0]);
      if Width(t) == 2 {
        WrittenAt(t, units, 1, 0);
        WrittenAt(t, units, 1, 1);
        AsciiBytes(units[1]);
      } else {
        WrittenAt(t, units, 0, 2);
        WrittenAt(t, units, 0, 3);
      }
    }
    NulsDetected(Written(t, units), fallback);
    hide Put, Fits;
  }

  lemma NulsDetected(bytes: seq<bv8>, fallback: UtfType)
    requires |bytes| >= 4 && MarkOf(bytes[0], bytes[1], bytes[2], bytes[3]).None?
    ensures Detected(bytes, fallback)
         == Detection(ByNuls(bytes[0] != 0, bytes[1] != 0, bytes[2] != 0, bytes[3] != 0, fallback), false)
  {
  }

  lemma AsciiByte(c: bv32)
    requires c & 0xFFFF_FF80 == 0 && c != 0
    ensures Byte(c) != 0 && Byte(c) != 0xFE && Byte(c) != 0xFF && Byte(c) != 0xEF
  {
  }

  lemma FullByte(c: bv32)
    requires c & 0xFFFF_FF00 == 0 && c != 0
    ensures Byte(c) != 0
  {
  }

  lemma AsciiBytes(c: bv32)
    requires c & 0xFFFF_FF80 == 0 && c != 0
    ensures Byte(c >> 8) == 0 && Byte(c >> 16) == 0 && Byte(c >> 24) == 0
    ensures Byte(c) != 0 && Byte(c) != 0xFE && Byte(c) != 0xFF && Byte(c) != 0xEF
  {
  }
}
