/** What users of the memory pool get: where blocks lie, how much a chunk serves, and how much
  * the pool reports, said without machine words.
  */
module PoolUse {
  import opened Wrappers
  import opened MemoryPool

  function RoundUp(n: nat): nat {
    (n + 7) / 8 * 8
  }

  function Larger(a: nat, b: nat): nat {
    if a > b then a else b
  }

  lemma AlignRounds(n: nat)
    requires n <= WORD - 8
    ensures Align(n) == RoundUp(n)
  {
  }

  /** `more` bytes are left in the newest chunk. */
  predicate Fits(p: Pool, more: nat) {
    p.chunks != [] && p.chunks[0].size + more <= p.chunks[0].capacity
  }

  /** The first byte of the newest chunk that is not in use. */
  function Next(p: Pool): nat
    requires p.chunks != []
  {
    p.chunks[0].addr + RoundUp(p.header) + p.chunks[0].size
  }

  // ---------- One request ----------

  /** A block comes from the newest chunk if it has the bytes left, and else from a new chunk
    * of the pool's chunk size, or of the block's if that is more. */
  lemma MallocGets(p: Pool, size: nat, offer: Option<nat>)
    requires Valid(p) && 0 < size < WORD && Exact(p, size, offer) && Served(p, size, offer)
    ensures var r, bytes := Allocated(p, size, offer), RoundUp(size);
            if Fits(p, bytes) then
              r == Allocation(p.(chunks := [p.chunks[0].(size := p.chunks[0].size + bytes)] + p.chunks[1..],
                                 blocks := p.blocks[Next(p) := bytes]),
                              Some(Next(p)))
            else if offer.None? then r == Allocation(p, None)
            else
              var capacity, ptr := Larger(p.chunkCapacity, bytes), offer.value + RoundUp(p.header);
              r == Allocation(p.(chunks := [Chunk(offer.value, RoundUp(p.header) + capacity, capacity, bytes)] + p.chunks,
                                 blocks := p.blocks[ptr := bytes]),
                              Some(ptr))
  {
    hide Valid, Served, GoodOffer;
    var aligned := Align(size);
    FitsExactly(p, size, offer);
    AlignRounds(p.header);
    if !NeedsChunk(p, aligned) {
      assert Allocated(p, size, offer) == Cut(p, aligned);
      hide Allocated;
      assert (p.chunks[0].size + aligned) % WORD == p.chunks[0].size + aligned;
    } else if offer.Some? {
      var capacity := NewCapacity(p, aligned);
      assert Allocated(p, size, offer) == Cut(WithChunk(p, capacity, offer), aligned);
      hide Allocated;
      assert ChunkBytes(p, capacity) == RoundUp(p.header) + capacity;
      assert ([Chunk(offer.value, ChunkBytes(p, capacity), capacity, 0)] + p.chunks)[1..] == p.chunks;
    }
    hide Align, RoundUp, Exact, NeedsChunk;
  }

  /** The source's test for room, where its sum does not wrap. */
  lemma FitsExactly(p: Pool, size: nat, offer: Option<nat>)
    requires Valid(p) && 0 < size < WORD && Exact(p, size, offer)
    ensures NeedsChunk(p, Align(size)) == !Fits(p, RoundUp(size))
    ensures !NeedsChunk(p, Align(size)) || offer.Some? ==> size <= WORD - 8 && Align(size) == RoundUp(size)
  {
    hide Valid;
    if p.chunks != [] {
      HeadFacts(p);
      RoomExact(p.chunks[0], Align(size));
    }
    if size <= WORD - 8 {
      AlignRounds(size);
    }
    hide Align, RoundUp;
  }

  /** A block stays where it is if it is large enough, or if it is the newest one and the bytes
    * it lacks are left behind it; else it is a new block. */
  lemma ReallocGets(p: Pool, original: nat, originalSize: nat, newSize: nat, offer: Option<nat>)
    requires Valid(p) && Truthful(p, Some(original), originalSize) && p.chunks != [] && newSize < WORD
    requires ExactRealloc(p, Some(original), originalSize, newSize, offer)
    ensures var r, bytes, more := Reallocated(p, Some(original), originalSize, newSize, offer), RoundUp(originalSize), RoundUp(newSize);
            if newSize == 0 then r == Allocation(p, None)
            else if more <= bytes then r == Allocation(p, Some(original))
            else if original + bytes == Next(p) && Fits(p, more - bytes) then
              r == Allocation(p.(chunks := [p.chunks[0].(size := p.chunks[0].size + (more - bytes))] + p.chunks[1..],
                                 blocks := p.blocks[original := more]),
                              Some(original))
            else more < WORD && r == Allocated(p, more, offer)
  {
    hide Valid, Allocated, Exact;
    AlignRounds(p.header);
    AlignRounds(originalSize);
    HeadFacts(p);
    if newSize <= WORD - 8 {
      AlignRounds(newSize);
      if Align(originalSize) < Align(newSize) {
        RoomExact(p.chunks[0], Align(newSize) - Align(originalSize));
      }
    }
    hide Align, RoundUp;
  }

  // ---------- What the pool reports ----------

  lemma {:induction false} SumsPrepend(c: Chunk, rest: seq<Chunk>)
    ensures SumSize([c] + rest) == c.size + SumSize(rest)
    ensures SumCapacity([c] + rest) == c.capacity + SumCapacity(rest)
  {
    var all := [c] + rest;
    if rest == [] {
      assert all[..0] == [];
    } else {
      SumsPrepend(c, rest[..|rest| - 1]);
      assert all[..|all| - 1] == [c] + rest[..|rest| - 1];
    }
  }

  /** `Capacity` grows by the pool's chunk size with every new chunk, or by more for a block that
    * needs more, and never else; `Size` grows by the block. */
  lemma MallocCounts(p: Pool, size: nat, offer: Option<nat>)
    requires Valid(p) && 0 < size < WORD && Exact(p, size, offer) && Served(p, size, offer)
    ensures var r, bytes := Allocated(p, size, offer), RoundUp(size);
            && SumCapacity(r.pool.chunks) == SumCapacity(p.chunks)
                 + (if !Fits(p, bytes) && offer.Some? then Larger(p.chunkCapacity, bytes) else 0)
            && SumSize(r.pool.chunks) == SumSize(p.chunks) + (if r.ptr.Some? then bytes else 0)
  {
    MallocGets(p, size, offer);
    var r, bytes := Allocated(p, size, offer), RoundUp(size);
    hide Valid, Exact, Served, Allocated, RoundUp, Next;
    if r.ptr.Some? {
      SumsPrepend(r.pool.chunks[0], r.pool.chunks[1..]);
      if Fits(p, bytes) {
        SumsPrepend(p.chunks[0], p.chunks[1..]);
        assert p.chunks == [p.chunks[0]] + p.chunks[1..];
      }
      assert r.pool.chunks == [r.pool.chunks[0]] + r.pool.chunks[1..];
    }
  }

  // ---------- One chunk serves many requests ----------

  function Total(sizes: seq<nat>): nat {
    if sizes == [] then 0 else Total(sizes[..|sizes| - 1]) + RoundUp(sizes[|sizes| - 1])
  }

  /** Requests one after another; the base allocator has one chunk to give. */
  function Mallocs(p: Pool, sizes: seq<nat>, offer: nat): (r: (Pool, seq<Option<nat>>))
    requires forall k | 0 <= k < |sizes| :: sizes[k] < WORD
    ensures |r.1| == |sizes|
  {
    if sizes == [] then (p, [])
    else
      var n := |sizes| - 1;
      var (before, ptrs) := Mallocs(p, sizes[..n], offer);
      var r := Allocated(before, sizes[n], if n == 0 then Some(offer) else None);
      (r.pool, ptrs + [r.ptr])
  }

  /** The pool with one chunk, of which so much is in use. */
  predicate OneChunk(p: Pool, offer: nat, used: nat) {
    p.chunks == [Chunk(offer, RoundUp(p.header) + p.chunkCapacity, p.chunkCapacity, used)]
  }

  predicate ChunkOffered(header: Header, chunkCapacity: nat, offer: nat) {
    && RoundUp(header) + chunkCapacity < WORD
    && offer + RoundUp(header) + chunkCapacity <= WORD
  }

  lemma FirstServed(p: Pool, size: nat, offer: nat)
    requires Valid(p) && p.chunks == [] && p.user.None? && ChunkOffered(p.header, p.chunkCapacity, offer)
    requires 0 < size < WORD && RoundUp(size) <= p.chunkCapacity
    ensures var r := Allocated(p, size, Some(offer));
            && Valid(r.pool) && OneChunk(r.pool, offer, RoundUp(size)) && r.ptr == Some(offer + RoundUp(p.header))
            && r.pool.header == p.header && r.pool.chunkCapacity == p.chunkCapacity
  {
    AlignRounds(p.header);
    AlignRounds(size);
    hide Align, RoundUp, Valid, Allocated;
    MallocKeeps(p, size, Some(offer));
    MallocGets(p, size, Some(offer));
  }

  lemma NextServed(p: Pool, size: nat, offer: nat, used: nat)
    requires Valid(p) && OneChunk(p, offer, used)
    requires 0 < size < WORD && used + RoundUp(size) <= p.chunkCapacity
    ensures var r := Allocated(p, size, None);
            && Valid(r.pool) && OneChunk(r.pool, offer, used + RoundUp(size)) && r.ptr == Some(offer + RoundUp(p.header) + used)
            && r.pool.header == p.header && r.pool.chunkCapacity == p.chunkCapacity
  {
    HeadFacts(p);
    AlignRounds(size);
    RoomExact(p.chunks[0], Align(size));
    hide Align, RoundUp, Valid, Allocated;
    MallocKeeps(p, size, None);
    MallocGets(p, size, None);
  }

  /** The blocks lie one behind the other from `first` on. */
  predicate SideBySide(ptrs: seq<Option<nat>>, sizes: seq<nat>, first: nat) {
    |ptrs| == |sizes| && forall k | 0 <= k < |sizes| :: ptrs[k] == Some(first + Total(sizes[..k]))
  }

  lemma SideBySideMore(ptrs: seq<Option<nat>>, sizes: seq<nat>, first: nat)
    requires sizes != [] && SideBySide(ptrs, sizes[..|sizes| - 1], first)
    ensures SideBySide(ptrs + [Some(first + Total(sizes[..|sizes| - 1]))], sizes, first)
  {
    hide Total;
    var n := |sizes| - 1;
    assert forall k | 0 <= k <= n :: sizes[..n][..k] == sizes[..k];
  }

  /** The requests were all served from one chunk, side by side in order, and it is all the
    * pool has. */
  ghost predicate ServedSoFar(p: Pool, ptrs: seq<Option<nat>>, header: Header, chunkCapacity: nat, sizes: seq<nat>, offer: nat) {
    && SideBySide(ptrs, sizes, offer + RoundUp(header))
    && Valid(p) && p.header == header && p.chunkCapacity == chunkCapacity
    && if sizes == [] then p == Fresh(header, chunkCapacity) else OneChunk(p, offer, Total(sizes))
  }

  lemma OneMoreServed(p: Pool, ptrs: seq<Option<nat>>, header: Header, chunkCapacity: nat, sizes: seq<nat>, offer: nat)
    requires sizes != [] && ServedSoFar(p, ptrs, header, chunkCapacity, sizes[..|sizes| - 1], offer)
    requires ChunkOffered(header, chunkCapacity, offer) && Total(sizes) <= chunkCapacity
    requires 0 < sizes[|sizes| - 1] < WORD
    ensures var r := Allocated(p, sizes[|sizes| - 1], if |sizes| == 1 then Some(offer) else None);
            ServedSoFar(r.pool, ptrs + [r.ptr], header, chunkCapacity, sizes, offer)
  {
    hide Valid, RoundUp, Allocated, OneChunk, ChunkOffered, SideBySide;
    var n := |sizes| - 1;
    if n == 0 {
      FirstServed(p, sizes[n], offer);
    } else {
      NextServed(p, sizes[n], offer, Total(sizes[..n]));
    }
    SideBySideMore(ptrs, sizes, offer + RoundUp(header));
  }

  /** From an empty pool, requests that fit into one chunk together are all served from one. */
  lemma {:induction false} OneChunkServes(header: Header, chunkCapacity: nat, sizes: seq<nat>, offer: nat)
    requires header % 8 == 0 && 0 < header && ChunkOffered(header, chunkCapacity, offer)
    requires forall k | 0 <= k < |sizes| :: 0 < sizes[k] < WORD
    requires Total(sizes) <= chunkCapacity
    ensures var (p, ptrs) := Mallocs(Fresh(header, chunkCapacity), sizes, offer);
            ServedSoFar(p, ptrs, header, chunkCapacity, sizes, offer)
  {
    if sizes == [] {
      assert Valid(Fresh(header, chunkCapacity));
    } else {
      var n := |sizes| - 1;
      assert Total(sizes[..n]) <= Total(sizes);
      hide ServedSoFar, Allocated, Total, ChunkOffered, RoundUp;
      OneChunkServes(header, chunkCapacity, sizes[..n], offer);
      var (p, ptrs) := Mallocs(Fresh(header, chunkCapacity), sizes[..n], offer);
      OneMoreServed(p, ptrs, header, chunkCapacity, sizes, offer);
    }
  }

  // ---------- Clearing ----------

  /** The pool is one that came from `origin`: the caller's buffer, if there is one, is still its
    * oldest chunk. */
  predicate CameFrom(p: Pool, origin: Pool) {
    && p.header == origin.header && p.chunkCapacity == origin.chunkCapacity && p.user == origin.user
    && (p.user.Some? ==>
          && p.chunks != [] && origin.chunks != []
          && p.chunks[|p.chunks| - 1].(size := 0) == origin.chunks[|origin.chunks| - 1].(size := 0))
  }

  lemma AllocatedCameFrom(p: Pool, origin: Pool, size: nat, offer: Option<nat>)
    requires CameFrom(p, origin) && size < WORD
    ensures CameFrom(Allocated(p, size, offer).pool, origin)
  {
    hide Align;
  }

  lemma ReallocatedCameFrom(p: Pool, origin: Pool, original: Option<nat>, originalSize: nat, newSize: nat, offer: Option<nat>)
    requires CameFrom(p, origin) && originalSize < WORD && newSize < WORD && (original.Some? ==> p.chunks != [])
    ensures CameFrom(Reallocated(p, original, originalSize, newSize, offer).pool, origin)
  {
    hide Align, Allocated;
    AllocatedCameFrom(p, origin, newSize, offer);
    AllocatedCameFrom(p, origin, Align(newSize), offer);
  }

  lemma {:induction false} RunCameFrom(h: Heap, requests: seq<Request>)
    requires CameFrom(h.pool, h.pool) && Run(h, requests).Some?
    ensures CameFrom(Run(h, requests).value.pool, h.pool)
  {
    if requests != [] {
      var before, request := requests[..|requests| - 1], requests[|requests| - 1];
      RunCameFrom(h, before);
      var q := Run(h, before).value;
      hide Allocated, Reallocated, Recopied, Legal;
      match request {
        case Allocate(size, offer) => AllocatedCameFrom(q.pool, h.pool, size, offer);
        case Reallocate(original, originalSize, newSize, offer) =>
          ReallocatedCameFrom(q.pool, h.pool, original, originalSize, newSize, offer);
        case Write(_, _, _) =>
        case Clear =>
      }
    }
  }

  /** Clearing brings back the pool as it was constructed, whatever was asked of it since. */
  lemma ClearRestores(header: Header, chunkCapacity: nat, buffer: nat, size: nat, memory: Memory, requests: seq<Request>)
    requires size > header
    ensures var empty := Heap(Fresh(header, chunkCapacity), memory, map[]);
            Run(empty, requests).Some? ==> Cleared(Run(empty, requests).value.pool) == empty.pool
    ensures var over := Heap(OverBuffer(buffer, size, header, chunkCapacity), memory, map[]);
            Run(over, requests).Some? ==> Cleared(Run(over, requests).value.pool) == over.pool
  {
    var empty := Heap(Fresh(header, chunkCapacity), memory, map[]);
    var over := Heap(OverBuffer(buffer, size, header, chunkCapacity), memory, map[]);
    if Run(empty, requests).Some? {
      RunCameFrom(empty, requests);
    }
    if Run(over, requests).Some? {
      RunCameFrom(over, requests);
    }
    hide Run;
  }

  /** A pool over a buffer serves from the buffer first, right behind the header. */
  lemma BufferServes(header: Header, chunkCapacity: nat, buffer: nat, size: nat, request: nat, offer: Option<nat>)
    requires header % 8 == 0 && 0 < header < size && chunkCapacity < WORD && buffer + size <= WORD
    requires 0 < request <= WORD - 8 && RoundUp(header) + RoundUp(request) <= size
    ensures var r := Allocated(OverBuffer(buffer, size, header, chunkCapacity), request, offer);
            r.ptr == Some(buffer + RoundUp(header)) && r.pool.chunkCapacity == chunkCapacity
  {
    var p := OverBuffer(buffer, size, header, chunkCapacity);
    NewPools(header, chunkCapacity, buffer, size);
    AlignRounds(request);
    hide Valid, Allocated;
    MallocGets(p, request, offer);
  }
}
