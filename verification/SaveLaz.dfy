/** Saving a point cloud: which points of the buffer go into the file, and what the header says
  * about them. The laszip library is a log of the points written.
  */
module SaveLaz {
  /** A point as the sensor sends it, in millimetres. */
  datatype Point = Point(x: int, y: int, z: int, timestamp: nat, raw: seq<bv8>)

  /** The coordinates are in metres. */
  datatype Header = Header(points: int, min: Corner, max: Corner)
  datatype Corner = Corner(x: real, y: real, z: real)

  const INT_MAX := 0x7FFF_FFFF

  function Metres(millimetres: int): real {
    0.001 * (millimetres as real)
  }

  function At(p: Point): Corner {
    Corner(Metres(p.x), Metres(p.y), Metres(p.z))
  }

  /** A thousand of them make a metre. */
  lemma MetresMeaning(millimetres: int)
    ensures 1000.0 * Metres(millimetres) == millimetres as real
  {
  }

  /** The rounded-up quotient, and the step of the decimation. */
  function Ceiling(n: nat, d: nat): nat
    requires d > 0
  {
    (n + d - 1) / d
  }

  function Step(n: nat): nat {
    if n > 4000000 then Ceiling(n, 2000000) else 1
  }

  /** `i += step` on a 32-bit `int`, which here wraps around. */
  function Add32(i: int, step: int): int {
    if i + step > INT_MAX then i + step - 0x1_0000_0000 else i + step
  }

  /** An `int` compared with a `size_t` becomes one. */
  function AsSize(i: int): int {
    if i < 0 then i + 0x1_0000_0000_0000_0000 else i
  }

  /** The indices from `i` on, `step` apart. */
  function Indices(i: nat, n: nat, step: nat): (indices: seq<nat>)
    requires step > 0
    ensures forall j | 0 <= j < |indices| :: i <= indices[j] < n
    decreases n - i
  {
    if i >= n then [] else [i] + Indices(i + step, n, step)
  }

  function Chosen(buffer: seq<Point>, indices: seq<nat>): (points: seq<Point>)
    requires forall j | 0 <= j < |indices| :: indices[j] < |buffer|
    ensures |points| == |indices|
  {
    seq(|indices|, j requires 0 <= j < |indices| => buffer[indices[j]])
  }

  // ---------- The box ----------

  ghost predicate Within(c: Corner, min: Corner, max: Corner) {
    min.x <= c.x <= max.x && min.y <= c.y <= max.y && min.z <= c.z <= max.z
  }

  /** The box holds all points, and each side touches one. */
  ghost predicate Boxes(points: seq<Point>, min: Corner, max: Corner) {
    && (forall p | p in points :: Within(At(p), min, max))
    && (points != [] ==>
          && (exists p :: p in points && At(p).x == min.x) && (exists p :: p in points && At(p).x == max.x)
          && (exists p :: p in points && At(p).y == min.y) && (exists p :: p in points && At(p).y == max.y)
          && (exists p :: p in points && At(p).z == min.z) && (exists p :: p in points && At(p).z == max.z))
  }

  function Least(a: real, b: real): real {
    if b < a then b else a
  }

  function Greatest(a: real, b: real): real {
    if a < b then b else a
  }

  lemma BoxGrows(points: seq<Point>, p: Point, min: Corner, max: Corner, largest: real)
    requires Boxes(points, min, max)
    requires points == [] ==> min == Corner(largest, largest, largest) && max == Corner(-largest, -largest, -largest)
    requires Within(At(p), Corner(-largest, -largest, -largest), Corner(largest, largest, largest))
    ensures Boxes(points + [p],
              Corner(Least(min.x, At(p).x), Least(min.y, At(p).y), Least(min.z, At(p).z)),
              Corner(Greatest(max.x, At(p).x), Greatest(max.y, At(p).y), Greatest(max.z, At(p).z)))
  {
    var more := points + [p];
    assert p in more && forall q | q in points :: q in more;
    hide Metres;
  }

  // ---------- The file ----------

  /** `largest` is the largest floating-point number. */
  method Save(buffer: seq<Point>, largest: real) returns (header: Header, written: seq<Point>)
    requires |buffer| <= INT_MAX
    requires forall p | p in buffer :: Within(At(p), Corner(-largest, -largest, -largest), Corner(largest, largest, largest))
    ensures written == Chosen(buffer, Indices(0, |buffer|, Step(|buffer|)))
    ensures header.points == |written|
    ensures Boxes(buffer, header.min, header.max)
  {
    var min, max := Box(buffer, largest);
    StepSmall(|buffer|);
    // The step is at least 1 either way, so the source's test for less never passes.
    var step := 1;
    if |buffer| > 4000000 {
      step := Ceiling(|buffer|, 2000000);
    }
    var points := CountLoop(|buffer|, step);
    header := Header(points, min, max);
    written := WriteLoop(buffer, step);
  }

  method Box(buffer: seq<Point>, largest: real) returns (min: Corner, max: Corner)
    requires forall p | p in buffer :: Within(At(p), Corner(-largest, -largest, -largest), Corner(largest, largest, largest))
    ensures Boxes(buffer, min, max)
  {
    hide *;
    min, max := Corner(largest, largest, largest), Corner(-largest, -largest, -largest);
    var i := 0;
    EmptyBox(min, max);
    assert buffer[..0] == [];
    while i < |buffer|
      invariant 0 <= i <= |buffer|
      invariant Boxes(buffer[..i], min, max)
      invariant i == 0 ==> min == Corner(largest, largest, largest) && max == Corner(-largest, -largest, -largest)
    {
      var c := At(buffer[i]);
      assert buffer[i] in buffer;
      BoxGrows(buffer[..i], buffer[i], min, max, largest);
      assert buffer[..i + 1] == buffer[..i] + [buffer[i]];
      max := Corner(Greatest(max.x, c.x), Greatest(max.y, c.y), Greatest(max.z, c.z));
      min := Corner(Least(min.x, c.x), Least(min.y, c.y), Least(min.z, c.z));
      i := i + 1;
    }
    assert buffer[..i] == buffer;
  }

  lemma EmptyBox(min: Corner, max: Corner)
    ensures Boxes([], min, max)
  {
  }

  lemma StepSmall(n: nat)
    requires n <= INT_MAX
    ensures 1 <= Step(n) <= 1074
  {
  }

  /** The indices that are still to come when the loop variable is `i`. */
  function Rest(i: int, n: nat, step: nat): seq<nat>
    requires step > 0
  {
    if 0 <= i < n then Indices(i, n, step) else []
  }

  /** One turn of the loop. When the addition wraps, the loop is over, as it should be. */
  lemma Turn(i: int, n: nat, step: nat)
    requires n <= INT_MAX && 1 <= step <= INT_MAX && -0x8000_0000 <= i <= INT_MAX && AsSize(i) < n
    ensures 0 <= i < n
    ensures Rest(i, n, step) == [i] + Rest(Add32(i, step), n, step)
    ensures -0x8000_0000 <= Add32(i, step) <= INT_MAX
    ensures AsSize(Add32(i, step)) < n ==> Add32(i, step) > i
  {
    assert Indices(i, n, step) == [i] + Indices(i + step, n, step);
    if i + step >= n {
      assert Indices(i + step, n, step) == [];
      assert Rest(Add32(i, step), n, step) == [];
    } else {
      assert Add32(i, step) == i + step;
    }
  }

  lemma Over(i: int, n: nat, step: nat)
    requires step > 0 && n <= INT_MAX && -0x8000_0000 <= i <= INT_MAX && AsSize(i) >= n
    ensures Rest(i, n, step) == []
  {
  }

  lemma AllToCome(n: nat, step: nat)
    requires step > 0
    ensures Rest(0, n, step) == Indices(0, n, step)
  {
  }

  method CountLoop(n: nat, step: nat) returns (points: nat)
    requires n <= INT_MAX && 1 <= step <= INT_MAX
    ensures points == |Indices(0, n, step)|
  {
    hide Indices, Rest, Add32, AsSize;
    points := 0;
    var i: int := 0;
    AllToCome(n, step);
    while AsSize(i) < n
      invariant -0x8000_0000 <= i <= INT_MAX
      invariant points + |Rest(i, n, step)| == |Indices(0, n, step)|
      decreases if AsSize(i) < n then n - i else 0
    {
      Turn(i, n, step);
      points := points + 1;
      i := Add32(i, step);
    }
    Over(i, n, step);
  }

  method WriteLoop(buffer: seq<Point>, step: nat) returns (written: seq<Point>)
    requires |buffer| <= INT_MAX && 1 <= step <= INT_MAX
    ensures written == Chosen(buffer, Indices(0, |buffer|, step))
  {
    hide Indices, Rest, Add32, AsSize;
    written := [];
    var n := |buffer|;
    var i: int := 0;
    ghost var all, done := Indices(0, n, step), 0;
    AllToCome(n, step);
    while AsSize(i) < n
      invariant -0x8000_0000 <= i <= INT_MAX
      invariant 0 <= done <= |all|
      invariant all[done..] == Rest(i, n, step)
      invariant written == Chosen(buffer, all)[..done]
      decreases if AsSize(i) < n then n - i else 0
    {
      Turn(i, n, step);
      ghost var rest := Rest(Add32(i, step), n, step);
      assert all[done] == all[done..][0] == i;
      assert all[done + 1..] == all[done..][1..] == rest;
      written := written + [buffer[i]];
      i := Add32(i, step);
      done := done + 1;
    }
    Over(i, n, step);
  }

  // ---------- How many ----------

  lemma Multiples(i: nat, n: nat, step: nat, k: nat)
    requires step > 0 && k < |Indices(i, n, step)|
    ensures Indices(i, n, step)[k] == i + k * step
    decreases k
  {
    if k > 0 {
      Multiples(i + step, n, step, k - 1);
    }
  }

  /** There is an index for every multiple of the step below the size. */
  lemma {:induction false} Count(i: nat, n: nat, step: nat)
    requires step > 0 && i <= n
    ensures var c := |Indices(i, n, step)|;
            (c == 0 <==> i == n) && n <= i + c * step && (c > 0 ==> i + (c - 1) * step < n)
    decreases n - i
  {
    if i < n {
      var c := |Indices(i, n, step)|;
      if i + step <= n {
        Count(i + step, n, step);
        assert c * step == (c - 1) * step + step;
        if c > 1 {
          assert (c - 1) * step == (c - 2) * step + step;
        }
      }
    }
  }

  /** Up to four million points are all written. */
  lemma AllWritten(buffer: seq<Point>)
    requires |buffer| <= 4000000
    ensures Chosen(buffer, Indices(0, |buffer|, Step(|buffer|))) == buffer
  {
    var n := |buffer|;
    Count(0, n, 1);
    forall k | 0 <= k < n ensures Indices(0, n, 1)[k] == k {
      Multiples(0, n, 1, k);
    }
  }

  /** Of more, between a third and a half of four million are, at the multiples of the step. */
  lemma SomeWritten(n: nat)
    requires n > 4000000
    ensures var step := Step(n); var indices := Indices(0, n, step);
            && 1333334 <= |indices| <= 2000000
            && forall k | 0 <= k < |indices| :: indices[k] == k * step
  {
    var step := Step(n);
    var indices := Indices(0, n, step);
    var c := |indices|;
    Count(0, n, step);
    assert step >= 3 && 2000000 * (step - 1) < n <= 2000000 * step;
    Upper(c, step, n);
    Lower(c, step, n);
    forall k | 0 <= k < |indices| ensures indices[k] == k * step {
      Multiples(0, n, step, k);
    }
  }

  lemma Times(a: nat, b: nat, step: nat)
    requires a <= b
    ensures a * step <= b * step
  {
  }

  lemma Upper(c: nat, step: nat, n: nat)
    requires c > 0 && (c - 1) * step < n <= 2000000 * step
    ensures c <= 2000000
  {
    if c > 2000000 {
      Times(2000000, c - 1, step);
    }
  }

  lemma Lower(c: nat, step: nat, n: nat)
    requires step >= 3 && 2000000 * (step - 1) < n <= c * step
    ensures c >= 1333334
  {
    if c <= 1333333 {
      Times(c, 1333333, step);
    }
  }

  /** Both ends are reached. */
  lemma EndsReached()
    ensures |Indices(0, 4000001, Step(4000001))| == 1333334
    ensures |Indices(0, 6000000, Step(6000000))| == 2000000
  {
    Count(0, 4000001, 3);
    Count(0, 6000000, 3);
  }
}
