/** Buffered readers: a file, or a C++ stream, read in blocks into a caller's buffer, gives its
  * bytes one by one and then NUL for ever.
  */
module ReadStreams {
  import opened Utf
  import opened Wrappers

  function Min(a: nat, b: nat): nat {
    if a <= b then a else b
  }

  /** Four bytes of a block are four bytes of the file. */
  lemma Slices<T>(block: seq<T>, file: seq<T>, from: nat, to: nat, at: nat)
    requires from <= to <= |file| && block == file[from..to] && at + 4 <= |block|
    ensures block[at..at + 4] == file[from + at..from + at + 4]
  {
    var part, there := block[at..at + 4], file[from + at..from + at + 4];
    forall k | 0 <= k < 4 ensures part[k] == there[k] {
      assert block[at + k] == file[from + (at + k)];
    }
  }

  /** A reader over a file. Pointers into the buffer are positions, the null pointer is -1;
    * `done` counts what `fread` has delivered. */
  class FileReadStream {
    const file: seq<bv8>
    const buffer: array<bv8>
    var done: nat
    var bufferLast: int
    var current: nat
    var readCount: nat
    var count: nat
    var eof: bool

    /** The block in the buffer is the last one read. At the end of the file it is followed by
      * a NUL, which `bufferLast` then points at. */
    ghost predicate Valid()
      reads this, buffer
    {
      && buffer.Length >= 4
      && done == count + readCount <= |file|
      && readCount <= buffer.Length && current <= bufferLast
      && buffer[..readCount] == file[count..done]
      && (if eof then
            done == |file| && readCount < buffer.Length && bufferLast == readCount && buffer[readCount] == 0
          else readCount == buffer.Length && bufferLast == readCount - 1)
    }

    /** The number of bytes consumed. */
    function Tell(): nat
      reads this
    {
      count + current
    }

    /** `fread` of as much as the buffer holds: short only at the end of the file. */
    method Fread() returns (n: nat)
      requires done <= |file|
      modifies this`done, buffer
      ensures n == Min(buffer.Length, |file| - old(done))
      ensures done == old(done) + n
      ensures buffer[..n] == file[old(done)..done]
    {
      n := 0;
      while n < buffer.Length && done < |file|
        invariant n <= buffer.Length && done <= |file|
        invariant done == old(done) + n
        invariant buffer[..n] == file[old(done)..done]
      {
        buffer[n] := file[done];
        n, done := n + 1, done + 1;
      }
    }

    /** To the next character, reading another block if there is none in the buffer. */
    method Read()
      requires Valid() || (buffer.Length >= 4 && bufferLast == -1 && !eof && count == readCount == current == done == 0)
      modifies this, buffer
      ensures Valid()
      ensures Tell() == if old(bufferLast) == -1 then 0 else Min(old(Tell()) + 1, |file|)
      ensures old(bufferLast) == -1 ==> count == 0 && current == 0 && readCount == Min(buffer.Length, |file|)
    {
      if current < bufferLast {
        current := current + 1;
      } else if !eof {
        count := count + readCount;
        readCount := Fread();
        bufferLast := readCount - 1;
        current := 0;
        if readCount < buffer.Length {
          buffer[readCount] := 0;
          bufferLast := bufferLast + 1;
          eof := true;
        }
      }
    }

    constructor (file: seq<bv8>, buffer: array<bv8>)
      requires buffer.Length >= 4
      modifies buffer
      ensures this.file == file && this.buffer == buffer
      ensures Valid() && Tell() == 0
      ensures count == 0 && readCount == Min(buffer.Length, |file|)
    {
      this.file, this.buffer := file, buffer;
      done, bufferLast, current, readCount, count, eof := 0, -1, 0, 0, 0, false;
      new;
      Read();
    }

    method Peek() returns (c: bv8)
      requires Valid()
      ensures c == At(file, Tell())
    {
      c := buffer[current];
      assert current < readCount ==> buffer[..readCount][current] == file[count + current];
    }

    /** The characters are the bytes of the file in order, then NUL for ever, and `Tell` never
      * passes the end. */
    method Take() returns (c: bv8)
      requires Valid()
      modifies this, buffer
      ensures Valid()
      ensures c == At(file, old(Tell())) && Tell() == Min(old(Tell()) + 1, |file|)
    {
      c := Peek();
      Read();
    }

    /** The next four bytes, if they are all in the buffer: never the NUL after the end. */
    method Peek4() returns (four: Option<seq<bv8>>)
      requires Valid()
      ensures four.Some? <==> current + 4 <= readCount
      ensures four.Some? ==> Tell() + 4 <= |file| && four.value == file[Tell()..Tell() + 4]
    {
      if current + 4 - (if eof then 0 else 1) <= bufferLast {
        four := Some(buffer[current..current + 4]);
        assert buffer[current..current + 4] == buffer[..readCount][current..current + 4];
        Slices(buffer[..readCount], file, count, done, current);
      } else {
        four := None;
      }
    }
  }

  /** The same over a C++ stream. `read` reports failure when it delivers less than it was
    * asked for, and `gcount` then says how much. */
  class BasicIStreamWrapper {
    const content: seq<bv8>
    const buffer: array<bv8>
    var done: nat
    var bufferLast: int
    var current: nat
    var readCount: nat
    var count: nat
    var eof: bool

    ghost predicate Valid()
      reads this, buffer
    {
      && buffer.Length >= 4
      && done == count + readCount <= |content|
      && readCount <= buffer.Length && current <= bufferLast
      && buffer[..readCount] == content[count..done]
      && (if eof then
            done == |content| && readCount < buffer.Length && bufferLast == readCount && buffer[readCount] == 0
          else readCount == buffer.Length && bufferLast == readCount - 1)
    }

    function Tell(): nat
      reads this
    {
      count + current
    }

    method ReadStream() returns (good: bool, gcount: nat)
      requires done <= |content|
      modifies this`done, buffer
      ensures gcount == Min(buffer.Length, |content| - old(done))
      ensures good <==> gcount == buffer.Length
      ensures done == old(done) + gcount
      ensures buffer[..gcount] == content[old(done)..done]
    {
      gcount := 0;
      while gcount < buffer.Length && done < |content|
        invariant gcount <= buffer.Length && done <= |content|
        invariant done == old(done) + gcount
        invariant buffer[..gcount] == content[old(done)..done]
      {
        buffer[gcount] := content[done];
        gcount, done := gcount + 1, done + 1;
      }
      good := gcount == buffer.Length;
    }

    method Read()
      requires Valid() || (buffer.Length >= 4 && bufferLast == -1 && !eof && count == readCount == current == done == 0)
      modifies this, buffer
      ensures Valid()
      ensures Tell() == if old(bufferLast) == -1 then 0 else Min(old(Tell()) + 1, |content|)
    {
      if current < bufferLast {
        current := current + 1;
      } else if !eof {
        count := count + readCount;
        readCount := buffer.Length;
        bufferLast := readCount - 1;
        current := 0;
        var good, gcount := ReadStream();
        if !good {
          readCount := gcount;
          bufferLast := readCount;
          buffer[bufferLast] := 0;
          eof := true;
        }
      }
    }

    constructor (content: seq<bv8>, buffer: array<bv8>)
      requires buffer.Length >= 4
      modifies buffer
      ensures this.content == content && this.buffer == buffer
      ensures Valid() && Tell() == 0
    {
      this.content, this.buffer := content, buffer;
      done, bufferLast, current, readCount, count, eof := 0, -1, 0, 0, 0, false;
      new;
      Read();
    }

    method Peek() returns (c: bv8)
      requires Valid()
      ensures c == At(content, Tell())
    {
      c := buffer[current];
      assert current < readCount ==> buffer[..readCount][current] == content[count + current];
    }

    method Take() returns (c: bv8)
      requires Valid()
      modifies this, buffer
      ensures Valid()
      ensures c == At(content, old(Tell())) && Tell() == Min(old(Tell()) + 1, |content|)
    {
      c := Peek();
      Read();
    }

    method Peek4() returns (four: Option<seq<bv8>>)
      requires Valid()
      ensures four.Some? <==> current + 4 <= readCount
      ensures four.Some? ==> Tell() + 4 <= |content| && four.value == content[Tell()..Tell() + 4]
    {
      if current + 4 - (if eof then 0 else 1) <= bufferLast {
        four := Some(buffer[current..current + 4]);
        assert buffer[current..current + 4] == buffer[..readCount][current..current + 4];
        Slices(buffer[..readCount], content, count, done, current);
      } else {
        four := None;
      }
    }
  }
}
