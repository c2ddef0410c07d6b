/** The LiDAR client's two buffers. Each member below is one region under both locks, or
  * under the lock of the buffer it fills, so it is one step of any interleaving.
  */
module Livox {
  import opened Wrappers

  /** A point or an inertial sample: its time stamp and what else the sensor sent. */
  datatype Item = Item(timestamp: nat, raw: seq<bv8>)

  datatype PacketType = ImuData | CartesianHigh | CartesianLow | Spherical

  /** The buffers; `None` is the null pointer, when nothing is recorded. */
  datatype Buffers = Buffers(points: Option<seq<Item>>, imus: Option<seq<Item>>)

  /** What is kept of a packet: the items with a time stamp. */
  function Stamped(items: seq<Item>): (kept: seq<Item>)
    ensures forall x | x in kept :: x in items && x.timestamp > 0
  {
    if items == [] then []
    else if items[|items| - 1].timestamp > 0 then Stamped(items[..|items| - 1]) + [items[|items| - 1]]
    else Stamped(items[..|items| - 1])
  }

  lemma StampedOne(item: Item)
    ensures Stamped([item]) == if item.timestamp > 0 then [item] else []
  {
    assert [item][..0] == [];
  }

  function AcceptedPoints(b: Buffers, kind: PacketType, items: seq<Item>): seq<Item> {
    if b.points.Some? && kind == CartesianHigh then Stamped(items) else []
  }

  function AcceptedImu(b: Buffers, kind: PacketType, item: Item): seq<Item> {
    if b.imus.Some? && kind == ImuData then Stamped([item]) else []
  }

  function OnPoints(b: Buffers, kind: PacketType, items: seq<Item>): Buffers {
    if b.points.None? then b
    else b.(points := Some(b.points.value + AcceptedPoints(b, kind, items)))
  }

  function OnImu(b: Buffers, kind: PacketType, item: Item): Buffers {
    if b.imus.None? then b
    else b.(imus := Some(b.imus.value + AcceptedImu(b, kind, item)))
  }

  // ---------- What a packet brings ----------

  lemma {:induction false} StampedConcat(a: seq<Item>, b: seq<Item>)
    ensures Stamped(a + b) == Stamped(a) + Stamped(b)
  {
    if b == [] {
      assert a + b == a;
    } else {
      var front := b[..|b| - 1];
      assert (a + b)[..|a + b| - 1] == a + front;
      StampedConcat(a, front);
    }
  }

  lemma {:induction false} StampedAll(items: seq<Item>)
    requires forall x | x in items :: x.timestamp > 0
    ensures Stamped(items) == items
  {
    if items != [] {
      var front, last := items[..|items| - 1], items[|items| - 1];
      StampedAll(front);
      assert items == front + [last] && last in items;
    }
  }

  /** High-resolution points with time stamps are appended as they are. */
  lemma PointsRecorded(b: Buffers, items: seq<Item>)
    requires b.points.Some? && forall x | x in items :: x.timestamp > 0
    ensures OnPoints(b, CartesianHigh, items) == b.(points := Some(b.points.value + items))
  {
    StampedAll(items);
  }

  /** A point without a time stamp is left out, wherever it stands in its packet. */
  lemma UnstampedLeftOut(b: Buffers, before: seq<Item>, x: Item, after: seq<Item>)
    requires x.timestamp == 0
    ensures OnPoints(b, CartesianHigh, before + [x] + after) == OnPoints(b, CartesianHigh, before + after)
  {
    StampedConcat(before + [x], after);
    StampedConcat(before, [x]);
    StampedConcat(before, after);
    StampedOne(x);
    assert Stamped(before) + [] == Stamped(before);
  }

  lemma SampleRecorded(b: Buffers, x: Item)
    ensures OnImu(b, ImuData, x)
         == if b.imus.None? || x.timestamp == 0 then b else b.(imus := Some(b.imus.value + [x]))
  {
    StampedOne(x);
    if b.imus.Some? {
      assert b.imus.value + [] == b.imus.value;
    }
  }

  /** Any other packet changes nothing, and none does while nothing is recorded. */
  lemma NothingRecorded(b: Buffers, kind: PacketType, items: seq<Item>, x: Item)
    ensures kind != CartesianHigh || b.points.None? ==> OnPoints(b, kind, items) == b
    ensures kind != ImuData || b.imus.None? ==> OnImu(b, kind, x) == b
  {
    if b.points.Some? {
      assert b.points.value + [] == b.points.value;
    }
    if b.imus.Some? {
      assert b.imus.value + [] == b.imus.value;
    }
  }

  const NO_BUFFERS := Buffers(None, None)
  const EMPTY_BUFFERS := Buffers(Some([]), Some([]))

  class LivoxClient {
    var points: Option<seq<Item>>
    var imus: Option<seq<Item>>

    ghost function Abs(): Buffers
      reads this
    {
      Buffers(points, imus)
    }

    constructor ()
      ensures Abs() == NO_BUFFERS
    {
      points, imus := None, None;
    }

    method StartLog()
      modifies this
      ensures Abs() == EMPTY_BUFFERS
    {
      points := Some([]);
      imus := Some([]);
    }

    method StopLog()
      modifies this
      ensures Abs() == NO_BUFFERS
    {
      points := None;
      imus := None;
    }

    /** Fresh buffers go in, the old ones come out, even if they are null. */
    method RetrieveData() returns (batch: Buffers)
      modifies this
      ensures batch == old(Abs()) && Abs() == EMPTY_BUFFERS
    {
      var returnPoints: Option<seq<Item>> := Some([]);
      var returnImus: Option<seq<Item>> := Some([]);
      imus, returnImus := returnImus, imus;
      points, returnPoints := returnPoints, points;
      return Buffers(returnPoints, returnImus);
    }

    method PointCloudCallback(kind: PacketType, items: seq<Item>)
      modifies this
      ensures Abs() == OnPoints(old(Abs()), kind, items)
    {
      if kind == CartesianHigh {
        if points.None? { return; }
        ghost var before := points.value;
        var i := 0;
        assert items[..0] == [] && before + [] == before;
        while i < |items|
          invariant 0 <= i <= |items|
          invariant imus == old(imus)
          invariant points == Some(before + Stamped(items[..i]))
        {
          assert items[..i + 1][..i] == items[..i];
          assert (before + Stamped(items[..i])) + [items[i]] == before + (Stamped(items[..i]) + [items[i]]);
          if items[i].timestamp > 0 {
            points := Some(points.value + [items[i]]);
          }
          i := i + 1;
        }
        assert items[..i] == items;
      } else if points.Some? {
        assert points.value + [] == points.value;
      }
    }

    method ImuDataCallback(kind: PacketType, item: Item)
      modifies this
      ensures Abs() == OnImu(old(Abs()), kind, item)
    {
      StampedOne(item);
      if imus.Some? {
        assert imus.value + [] == imus.value;
      }
      if kind == ImuData {
        if imus.None? { return; }
        if item.timestamp > 0 {
          imus := Some(imus.value + [item]);
        }
      }
    }
  }
}
