/** rapidjson's pool allocator: blocks are cut one after another from the newest chunk of a
  * list of chunks. Addresses and sizes are machine words, so sums wrap around.
  */
module MemoryPool {
  import opened Wrappers

  const WORD := 0x1_0000_0000_0000_0000

  /** Rounded up to a multiple of 8, in one word: adds 7 and clears the low bits. */
  function Align(n: nat): (aligned: nat)
    requires n < WORD
    ensures aligned < WORD && aligned % 8 == 0
  {
    (n + 7) % WORD / 8 * 8
  }

  /** It rounds up exactly if the addition does not wrap; else the result is 0. */
  lemma AlignExact(n: nat)
    requires n < WORD
    ensures n <= WORD - 8 ==> n <= Align(n) < n + 8
    ensures n > WORD - 8 ==> Align(n) == 0
  {
  }

  /** A chunk: a header at `addr`, then room for `capacity` bytes of which `size` are in use.
    * `extent` is how many bytes from `addr` on belong to it. */
  datatype Chunk = Chunk(addr: nat, extent: nat, capacity: nat, size: nat)

  type Header = n: nat | n < 0x1_0000_0000

  /** `header` is the size of a chunk header, `user` the address of the caller's own buffer.
    * `chunks` lists the newest first. `blocks` is history: every block handed out since the
    * last clearing, with the bytes it has. */
  datatype Pool = Pool(
    header: Header,
    chunkCapacity: nat,
    user: Option<nat>,
    chunks: seq<Chunk>,
    blocks: map<nat, nat>)

  function Fresh(header: Header, chunkCapacity: nat): Pool {
    Pool(header, chunkCapacity, None, [], map[])
  }

  /** A pool over the caller's buffer of `size` bytes. */
  function OverBuffer(buffer: nat, size: nat, header: Header, chunkCapacity: nat): Pool
    requires size > header
  {
    Pool(header, chunkCapacity, Some(buffer), [Chunk(buffer, size, size - header, 0)], map[])
  }

  /** Where the blocks of a chunk begin. */
  function Data(header: Header, c: Chunk): nat
  {
    c.addr + Align(header)
  }

  // ---------- The operations ----------

  /** The bytes a new chunk asks of the base allocator. */
  function ChunkBytes(p: Pool, capacity: nat): nat
  {
    (Align(p.header) + capacity) % WORD
  }

  /** `offer` is what the base allocator answers, `None` if it has nothing. */
  function WithChunk(p: Pool, capacity: nat, offer: Option<nat>): Pool
  {
    match offer
    case None => p
    case Some(addr) => p.(chunks := [Chunk(addr, ChunkBytes(p, capacity), capacity, 0)] + p.chunks)
  }

  /** Whether `size` more bytes pass for fitting into a chunk. */
  predicate HasRoom(c: Chunk, size: nat) {
    (c.size + size) % WORD <= c.capacity
  }

  function NewCapacity(p: Pool, size: nat): nat {
    if p.chunkCapacity > size then p.chunkCapacity else size
  }

  predicate NeedsChunk(p: Pool, size: nat) {
    p.chunks == [] || !HasRoom(p.chunks[0], size)
  }

  datatype Allocation = Allocation(pool: Pool, ptr: Option<nat>)

  function Cut(p: Pool, size: nat): Allocation
    requires p.chunks != []
  {
    var head := p.chunks[0];
    var ptr := Data(p.header, head) + head.size;
    Allocation(p.(chunks := [head.(size := (head.size + size) % WORD)] + p.chunks[1..],
                  blocks := p.blocks[ptr := size]),
               Some(ptr))
  }

  function Allocated(p: Pool, size: nat, offer: Option<nat>): Allocation
    requires size < WORD
  {
    if size == 0 then Allocation(p, None)
    else
      var aligned := Align(size);
      if !NeedsChunk(p, aligned) then Cut(p, aligned)
      else if offer.None? then Allocation(p, None)
      else Cut(WithChunk(p, NewCapacity(p, aligned), offer), aligned)
  }

  /** Whether a block of this size seems to end where the used part of the newest chunk does. */
  predicate IsLast(p: Pool, ptr: nat, size: nat)
    requires p.chunks != []
  {
    ptr == Data(p.header, p.chunks[0]) + p.chunks[0].size - size
  }

  function GrowLast(p: Pool, ptr: nat, size: nat, newSize: nat): Pool
    requires p.chunks != [] && size <= newSize
  {
    var head := p.chunks[0];
    p.(chunks := [head.(size := (head.size + (newSize - size)) % WORD)] + p.chunks[1..],
       blocks := p.blocks[ptr := newSize])
  }

  predicate CanGrow(p: Pool, ptr: nat, size: nat, newSize: nat)
    requires p.chunks != [] && size <= newSize
  {
    IsLast(p, ptr, size) && HasRoom(p.chunks[0], newSize - size)
  }

  function Reallocated(p: Pool, original: Option<nat>, originalSize: nat, newSize: nat, offer: Option<nat>): Allocation
    requires originalSize < WORD && newSize < WORD
    requires original.Some? ==> p.chunks != []
  {
    if original.None? then Allocated(p, newSize, offer)
    else if newSize == 0 then Allocation(p, None)
    else
      var size, more := Align(originalSize), Align(newSize);
      if size >= more then Allocation(p, original)
      else if CanGrow(p, original.value, size, more) then Allocation(GrowLast(p, original.value, size, more), original)
      else Allocated(p, more, offer)
  }

  /** Only the caller's buffer stays, emptied. */
  function Cleared(p: Pool): Pool {
    var kept :=
      if p.user.Some? && p.chunks != [] then [p.chunks[|p.chunks| - 1].(size := 0)] else [];
    p.(chunks := kept, blocks := map[])
  }

  // ---------- Well-formed pools ----------

  predicate ChunkValid(p: Pool, c: Chunk)
  {
    && Align(p.header) + c.capacity <= c.extent
    && c.addr + c.extent <= WORD
    && c.size <= c.capacity && c.size % 8 == 0
  }

  predicate Apart(addr: nat, extent: nat, c: Chunk) {
    addr + extent <= c.addr || c.addr + c.extent <= addr
  }

  /** A block lies in the used part of a chunk, clear of its header, and is as well aligned
    * as the chunk. */
  predicate Inside(header: Header, c: Chunk, ptr: nat, size: nat)
  {
    && Data(header, c) <= ptr && ptr + size <= Data(header, c) + c.size
    && (ptr - c.addr) % 8 == 0
  }

  predicate Chunked(p: Pool) {
    && p.header % 8 == 0 && 0 < p.header
    && p.chunkCapacity < WORD
    && (forall i | 0 <= i < |p.chunks| :: ChunkValid(p, p.chunks[i]))
    && (forall i, j | 0 <= i < j < |p.chunks| ::
          Apart(p.chunks[i].addr, p.chunks[i].extent, p.chunks[j]))
  }

  /** The caller's buffer, if any, is the oldest chunk, and only that. */
  predicate UserKept(p: Pool) {
    p.user.Some? ==>
      && p.chunks != []
      && forall i | 0 <= i < |p.chunks| :: p.user == Some(p.chunks[i].addr) <==> i == |p.chunks| - 1
  }

  ghost predicate InSome(header: Header, chunks: seq<Chunk>, ptr: nat, size: nat) {
    exists i :: 0 <= i < |chunks| && Inside(header, chunks[i], ptr, size)
  }

  /** No two blocks overlap. */
  predicate Separate(blocks: map<nat, nat>) {
    && (forall a | a in blocks :: 0 < blocks[a])
    && (forall a, b | a in blocks && b in blocks && a < b :: a + blocks[a] <= b)
  }

  ghost predicate Blocked(p: Pool)
  {
    && Separate(p.blocks)
    && forall ptr | ptr in p.blocks :: InSome(p.header, p.chunks, ptr, p.blocks[ptr])
  }

  ghost predicate Valid(p: Pool) {
    Chunked(p) && UserKept(p) && Blocked(p)
  }

  /** The base allocator offers memory that no chunk has. */
  predicate GoodOffer(p: Pool, bytes: nat, offer: Option<nat>) {
    offer.Some? ==>
      && offer.value + bytes <= WORD
      && p.user != offer
      && forall i | 0 <= i < |p.chunks| :: Apart(offer.value, bytes, p.chunks[i])
  }

  /** What a request may get from the base allocator, if it comes to that. */
  predicate Served(p: Pool, size: nat, offer: Option<nat>)
    requires size < WORD
  {
    NeedsChunk(p, Align(size)) ==> GoodOffer(p, ChunkBytes(p, NewCapacity(p, Align(size))), offer)
  }

  /** A new chunk for a request of this size is as large as the sums say. */
  predicate ChunkFits(p: Pool, size: nat)
    requires size < WORD
  {
    size <= WORD - 8 && Align(p.header) + NewCapacity(p, Align(size)) < WORD
  }

  /** No sum wraps around that `Malloc` comes to: with room in the newest chunk, its sum; else,
    * if there is memory for another chunk, the size of that. */
  predicate Exact(p: Pool, size: nat, offer: Option<nat>)
    requires size < WORD
  {
    || size == 0
    || if !NeedsChunk(p, Align(size)) then
         size <= WORD - 8 && p.chunks[0].size + Align(size) < WORD
       else
         offer.Some? ==> ChunkFits(p, size)
  }

  /** The same for `Realloc`, which may also grow a block in place. */
  predicate ExactRealloc(p: Pool, original: Option<nat>, originalSize: nat, newSize: nat, offer: Option<nat>)
    requires originalSize < WORD && newSize < WORD
    requires original.Some? ==> p.chunks != []
  {
    if original.None? then Exact(p, newSize, offer)
    else
      var size, more := Align(originalSize), Align(newSize);
      || newSize == 0
      || (&& newSize <= WORD - 8
          && (size < more ==>
                if CanGrow(p, original.value, size, more) then p.chunks[0].size + (more - size) < WORD
                else Exact(p, more, offer)))
  }

  /** The block answered, if any, has at least the size asked for. */
  predicate Holds(r: Allocation, size: nat) {
    r.ptr.Some? ==> r.ptr.value in r.pool.blocks && size <= r.pool.blocks[r.ptr.value]
  }

  // ---------- Exactly when the arithmetic is right ----------

  /** The test for room is right exactly if its sum does not wrap. */
  lemma RoomExact(c: Chunk, size: nat)
    requires c.size <= c.capacity < WORD && size < WORD
    ensures (HasRoom(c, size) <==> c.size + size <= c.capacity) <==> c.size + size < WORD
  {
    if c.size + size >= WORD {
      assert (c.size + size) % WORD == c.size + size - WORD;
    }
  }

  /** So a request just short of the size of the address space passes for fitting. */
  lemma HugeRequestPasses()
    ensures var p := Pool(24, 65536, None, [Chunk(4096, 24 + 65536, 65536, 16)], map[]);
            var r := Allocated(p, WORD - 8, None);
            && Valid(p) && !Exact(p, WORD - 8, None)
            && r.ptr == Some(4096 + 24 + 16)
            && r.pool.blocks[4096 + 24 + 16] == WORD - 8
            && !Valid(r.pool)
  {
    var p := Pool(24, 65536, None, [Chunk(4096, 24 + 65536, 65536, 16)], map[]);
    var r := Allocated(p, WORD - 8, None);
    assert HasRoom(p.chunks[0], WORD - 8);
    assert 4136 in r.pool.blocks;
    assert !InSome(r.pool.header, r.pool.chunks, 4136, WORD - 8);
  }

  /** The room of the caller's buffer lies in the buffer exactly if the header is aligned. */
  lemma BufferExact(buffer: nat, size: nat, header: Header, chunkCapacity: nat)
    requires size > header
    ensures var p := OverBuffer(buffer, size, header, chunkCapacity);
            Data(p.header, p.chunks[0]) + p.chunks[0].capacity <= buffer + size <==> header % 8 == 0
  {
  }

  // ---------- Every operation keeps the pool well-formed ----------

  lemma AddChunkKeepsChunks(p: Pool, size: nat, offer: Option<nat>)
    requires Chunked(p) && UserKept(p) && size < WORD && ChunkFits(p, size) && offer.Some?
    requires NeedsChunk(p, Align(size)) && Served(p, size, offer)
    ensures var r := WithChunk(p, NewCapacity(p, Align(size)), offer);
            && Chunked(r) && UserKept(r)
            && r.chunks[0].size + Align(size) <= r.chunks[0].capacity
  {
    hide Align;
    var c := NewCapacity(p, Align(size));
    var r := WithChunk(p, c, offer);
    assert ChunkBytes(p, c) == Align(p.header) + c;
    assert forall i | 0 < i < |r.chunks| :: r.chunks[i] == p.chunks[i - 1];
  }

  lemma AddChunkKeeps(p: Pool, size: nat, offer: Option<nat>)
    requires Valid(p) && size < WORD && ChunkFits(p, size) && offer.Some?
    requires NeedsChunk(p, Align(size)) && Served(p, size, offer)
    ensures var r := WithChunk(p, NewCapacity(p, Align(size)), offer);
            && Valid(r) && r.blocks == p.blocks && r.chunks != []
            && r.chunks[0].size + Align(size) <= r.chunks[0].capacity
            && r.header == p.header && r.chunkCapacity == p.chunkCapacity && r.user == p.user
  {
    AddChunkKeepsChunks(p, size, offer);
    hide Align, Chunked, UserKept, Separate;
    var r := WithChunk(p, NewCapacity(p, Align(size)), offer);
    forall ptr | ptr in p.blocks ensures InSome(r.header, r.chunks, ptr, p.blocks[ptr]) {
      var i :| 0 <= i < |p.chunks| && Inside(p.header, p.chunks[i], ptr, p.blocks[ptr]);
      assert r.chunks[i + 1] == p.chunks[i];
      assert Inside(r.header, r.chunks[i + 1], ptr, p.blocks[ptr]);
    }
  }

  /** A block of one chunk does not reach into the room of another. */
  lemma OtherChunk(p: Pool, i: nat, ptr: nat, size: nat)
    requires Chunked(p) && 0 < i < |p.chunks| && Inside(p.header, p.chunks[i], ptr, size)
    ensures var head := p.chunks[0];
            ptr + size <= head.addr || Data(p.header, head) + head.capacity < ptr
  {
    assert Apart(p.chunks[0].addr, p.chunks[0].extent, p.chunks[i]);
    assert Align(p.header) > 0;
    hide Align;
  }

  /** The pool with more of the newest chunk in use. */
  function Used(p: Pool, size: nat, blocks: map<nat, nat>): Pool
    requires p.chunks != []
  {
    p.(chunks := [p.chunks[0].(size := p.chunks[0].size + size)] + p.chunks[1..], blocks := blocks)
  }

  lemma UsedKeepsChunks(p: Pool, size: nat, blocks: map<nat, nat>)
    requires Chunked(p) && UserKept(p) && p.chunks != [] && size % 8 == 0
    requires p.chunks[0].size + size <= p.chunks[0].capacity
    ensures Chunked(Used(p, size, blocks)) && UserKept(Used(p, size, blocks))
  {
    hide Align;
    var r := Used(p, size, blocks);
    assert forall i | 0 < i < |r.chunks| :: r.chunks[i] == p.chunks[i];
  }

  /** Using more of the newest chunk leaves its blocks, and all others, inside. */
  lemma UsedKeepsBlocks(p: Pool, size: nat, blocks: map<nat, nat>)
    requires Valid(p) && p.chunks != []
    ensures forall ptr | ptr in p.blocks :: InSome(p.header, Used(p, size, blocks).chunks, ptr, p.blocks[ptr])
  {
    hide Align, Chunked, UserKept, Separate;
    var r := Used(p, size, blocks);
    forall ptr | ptr in p.blocks ensures InSome(r.header, r.chunks, ptr, p.blocks[ptr]) {
      var i :| 0 <= i < |p.chunks| && Inside(p.header, p.chunks[i], ptr, p.blocks[ptr]);
      assert Inside(r.header, r.chunks[i], ptr, p.blocks[ptr]);
    }
  }

  lemma SeparateWith(blocks: map<nat, nat>, ptr: nat, size: nat)
    requires Separate(blocks) && 0 < size
    requires forall a | a in blocks && a != ptr :: a + blocks[a] <= ptr || ptr + size <= a
    ensures Separate(blocks[ptr := size])
  {
    var more := blocks[ptr := size];
    forall a, b | a in more && b in more && a < b ensures a + more[a] <= b {
      if a == ptr {
        assert b + blocks[b] <= ptr || ptr + size <= b;
      } else if b == ptr {
        assert a + blocks[a] <= ptr || ptr + size <= a;
      }
    }
  }

  /** Giving `ptr` another block, or its first. */
  lemma UsedKeeps(p: Pool, more: nat, ptr: nat, size: nat)
    requires Valid(p) && p.chunks != [] && more % 8 == 0 && 0 < size
    requires p.chunks[0].size + more <= p.chunks[0].capacity
    requires forall a | a in p.blocks && a != ptr :: a + p.blocks[a] <= ptr || ptr + size <= a
    requires var r := Used(p, more, p.blocks[ptr := size]); Inside(r.header, r.chunks[0], ptr, size)
    ensures Valid(Used(p, more, p.blocks[ptr := size]))
  {
    var blocks := p.blocks[ptr := size];
    var r := Used(p, more, blocks);
    UsedKeepsChunks(p, more, blocks);
    UsedKeepsBlocks(p, more, blocks);
    assert InSome(r.header, r.chunks, ptr, size);
    assert Separate(p.blocks);
    SeparateWith(p.blocks, ptr, size);
    hide Align, InSome, Inside, Chunked, UserKept, Separate;
  }

  /** Every block is clear of the unused part of the newest chunk. */
  lemma RestUnused(p: Pool, ptr: nat)
    requires Valid(p) && p.chunks != [] && ptr in p.blocks
    ensures var head := p.chunks[0];
            ptr + p.blocks[ptr] <= Data(p.header, head) + head.size || Data(p.header, head) + head.capacity <= ptr
  {
    var i :| 0 <= i < |p.chunks| && Inside(p.header, p.chunks[i], ptr, p.blocks[ptr]);
    if i > 0 {
      OtherChunk(p, i, ptr, p.blocks[ptr]);
    }
    hide Align, Apart;
  }

  lemma CutUsed(p: Pool, size: nat)
    requires Valid(p) && p.chunks != [] && size % 8 == 0
    requires p.chunks[0].size + size <= p.chunks[0].capacity
    ensures var r, ptr := Cut(p, size), Data(p.header, p.chunks[0]) + p.chunks[0].size;
            && r == Allocation(Used(p, size, p.blocks[ptr := size]), Some(ptr))
            && Inside(r.pool.header, r.pool.chunks[0], ptr, size)
  {
    HeadFacts(p);
    assert ChunkValid(p, p.chunks[0]) && p.header % 8 == 0;
    hide Valid;
  }

  lemma CutApart(p: Pool, size: nat)
    requires Valid(p) && p.chunks != [] && p.chunks[0].size + size <= p.chunks[0].capacity
    ensures var ptr := Data(p.header, p.chunks[0]) + p.chunks[0].size;
            ptr !in p.blocks && forall a | a in p.blocks :: a + p.blocks[a] <= ptr || ptr + size <= a
  {
    assert Separate(p.blocks);
    hide Valid, Data;
    forall a | a in p.blocks {
      RestUnused(p, a);
    }
  }

  /** Cutting a block off the newest chunk gives one apart from all others. */
  lemma CutKeeps(p: Pool, size: nat)
    requires Valid(p) && p.chunks != [] && 0 < size && size % 8 == 0
    requires p.chunks[0].size + size <= p.chunks[0].capacity
    ensures var r := Cut(p, size);
            && Valid(r.pool)
            && r.ptr.value !in p.blocks
            && r.pool.blocks == p.blocks[r.ptr.value := size]
            && r.pool.header == p.header && r.pool.chunkCapacity == p.chunkCapacity && r.pool.user == p.user
  {
    CutUsed(p, size);
    CutApart(p, size);
    UsedKeeps(p, size, Data(p.header, p.chunks[0]) + p.chunks[0].size, size);
    hide Valid, Cut, Inside, Data;
  }

  lemma MallocKeeps(p: Pool, size: nat, offer: Option<nat>)
    requires Valid(p) && size < WORD && Exact(p, size, offer) && Served(p, size, offer)
    ensures var r := Allocated(p, size, offer);
            && Valid(r.pool)
            && r.pool.header == p.header && r.pool.chunkCapacity == p.chunkCapacity && r.pool.user == p.user
            && (r.ptr.None? ==> r.pool == p)
            && (r.ptr.Some? ==>
                  && 0 < size <= Align(size)
                  && r.ptr.value !in p.blocks && r.pool.blocks == p.blocks[r.ptr.value := Align(size)])
    ensures size > 0 && (offer.Some? || !NeedsChunk(p, Align(size))) ==> Allocated(p, size, offer).ptr.Some?
  {
    AlignExact(size);
    var aligned := Align(size);
    if size > 0 {
      if p.chunks != [] {
        HeadFacts(p);
        RoomExact(p.chunks[0], aligned);
      }
      hide Align, Valid, Cut, Served;
      if !NeedsChunk(p, aligned) {
        CutKeeps(p, aligned);
      } else if offer.Some? {
        AddChunkKeeps(p, size, offer);
        CutKeeps(WithChunk(p, NewCapacity(p, aligned), offer), aligned);
      }
    }
  }

  // ---------- and only then ----------

  lemma HeadFacts(p: Pool)
    requires Valid(p) && p.chunks != []
    ensures var head := p.chunks[0];
            && head.addr < Data(p.header, head)
            && head.size <= head.capacity < WORD
  {
    assert ChunkValid(p, p.chunks[0]);
  }

  lemma Where(p: Pool, ptr: nat) returns (i: nat)
    requires Valid(p) && ptr in p.blocks
    ensures i < |p.chunks| && Inside(p.header, p.chunks[i], ptr, p.blocks[ptr])
  {
    assert InSome(p.header, p.chunks, ptr, p.blocks[ptr]);
    i :| 0 <= i < |p.chunks| && Inside(p.header, p.chunks[i], ptr, p.blocks[ptr]);
  }

  /** In a well-formed pool a block ends within the address space, and is smaller than that. */
  lemma BlockSmall(p: Pool, ptr: nat)
    requires Valid(p) && ptr in p.blocks
    ensures ptr + p.blocks[ptr] <= WORD && p.blocks[ptr] <= WORD - 8
  {
    var i := Where(p, ptr);
    assert ChunkValid(p, p.chunks[i]) && Align(p.header) >= 8;
    hide Align, Valid;
  }

  /** If the sum wraps, the block cut reaches past the end of the address space. */
  lemma WrappedCutBreaks(p: Pool, size: nat)
    requires p.chunks != [] && p.chunks[0].size + size >= WORD
    ensures !Valid(Cut(p, size).pool)
  {
    var r := Cut(p, size);
    if Valid(r.pool) {
      assert r.pool.blocks[r.ptr.value] == size;
      BlockSmall(r.pool, r.ptr.value);
      hide Valid, Align;
    }
  }

  /** If the size of a chunk wraps, the chunk is larger than the memory it has. */
  lemma WrappedChunkBreaks(p: Pool, capacity: nat, offer: Option<nat>, size: nat)
    requires offer.Some? && Align(p.header) + capacity >= WORD
    ensures !Valid(Cut(WithChunk(p, capacity, offer), size).pool)
  {
    var r := Cut(WithChunk(p, capacity, offer), size).pool;
    var bytes := Align(p.header) + capacity;
    assert r.chunks[0].capacity == capacity && r.chunks[0].extent == bytes % WORD;
    assert bytes % WORD < bytes;
    hide Align;
    assert !ChunkValid(r, r.chunks[0]);
  }

  lemma MallocBreaks(p: Pool, size: nat, offer: Option<nat>)
    requires Valid(p) && size < WORD && !Exact(p, size, offer)
    ensures size <= WORD - 8 ==> !Valid(Allocated(p, size, offer).pool)
    ensures size > WORD - 8 ==> !Holds(Allocated(p, size, offer), size)
  {
    AlignExact(size);
    var aligned := Align(size);
    hide Align, Valid;
    if size <= WORD - 8 {
      if !NeedsChunk(p, aligned) {
        WrappedCutBreaks(p, aligned);
      } else {
        WrappedChunkBreaks(p, NewCapacity(p, aligned), offer, aligned);
      }
    }
  }

  /** `Malloc` keeps the pool well-formed and gives as much as was asked for, exactly if no sum
    * wraps on the way it takes. */
  lemma MallocExact(p: Pool, size: nat, offer: Option<nat>)
    requires Valid(p) && 0 < size < WORD && Served(p, size, offer)
    ensures var r := Allocated(p, size, offer);
            Valid(r.pool) && Holds(r, size) <==> Exact(p, size, offer)
  {
    if Exact(p, size, offer) {
      MallocKeeps(p, size, offer);
    } else {
      MallocBreaks(p, size, offer);
    }
    hide Valid, Allocated, Exact, Served, Align;
  }

  /** What a caller may pass to `Realloc`: a block it was given, with the size it asked for,
    * or a smaller one it has asked for since. */
  predicate Truthful(p: Pool, original: Option<nat>, originalSize: nat) {
    && originalSize <= WORD - 8
    && (original.Some? ==> original.value in p.blocks && Align(originalSize) <= p.blocks[original.value])
  }

  /** The test for the last block cannot be fooled: it passes only for the block that ends the
    * used part of the newest chunk, and for its full size. */
  lemma LastIsLast(p: Pool, ptr: nat, size: nat)
    requires Valid(p) && ptr in p.blocks && size <= p.blocks[ptr]
    requires p.chunks != [] && IsLast(p, ptr, size)
    ensures size == p.blocks[ptr]
    ensures Inside(p.header, p.chunks[0], ptr, size)
  {
    var i := Where(p, ptr);
    var head := p.chunks[0];
    HeadFacts(p);
    if i > 0 {
      assert Chunked(p);
      OtherChunk(p, i, ptr, p.blocks[ptr]);
    }
    assert ptr == Data(p.header, head) + head.size - size;
    assert i == 0 ==> ptr + p.blocks[ptr] <= Data(p.header, head) + head.size;
    hide *;
  }

  lemma GrowIsUse(p: Pool, ptr: nat, size: nat, newSize: nat)
    requires p.chunks != [] && size <= newSize && p.chunks[0].size + (newSize - size) < WORD
    ensures GrowLast(p, ptr, size, newSize) == Used(p, newSize - size, p.blocks[ptr := newSize])
  {
  }

  lemma GrownInside(p: Pool, ptr: nat, size: nat, newSize: nat)
    requires p.chunks != [] && size <= newSize && IsLast(p, ptr, size)
    requires Inside(p.header, p.chunks[0], ptr, size)
    ensures Inside(p.header, Used(p, newSize - size, p.blocks[ptr := newSize]).chunks[0], ptr, newSize)
  {
    hide Align;
  }

  /** The unused rest of the newest chunk is free for the block before it to grow into. */
  lemma GrowClear(p: Pool, ptr: nat, size: nat, newSize: nat, a: nat)
    requires Valid(p) && ptr in p.blocks && p.chunks != []
    requires p.blocks[ptr] == size <= newSize && IsLast(p, ptr, size)
    requires p.chunks[0].size + (newSize - size) <= p.chunks[0].capacity
    requires a in p.blocks && a != ptr
    ensures a + p.blocks[a] <= ptr || ptr + newSize <= a
  {
    RestUnused(p, a);
    assert if a < ptr then a + p.blocks[a] <= ptr else ptr + size <= a;
    hide Align, Valid;
  }

  lemma GrowLastKeeps(p: Pool, ptr: nat, size: nat, newSize: nat)
    requires Valid(p) && ptr in p.blocks && p.chunks != []
    requires size <= p.blocks[ptr] && size <= newSize && (newSize - size) % 8 == 0
    requires IsLast(p, ptr, size)
    requires p.chunks[0].size + (newSize - size) <= p.chunks[0].capacity
    ensures p.blocks[ptr] == size
    ensures Valid(GrowLast(p, ptr, size, newSize))
  {
    assert p.blocks[ptr] > 0;
    hide Valid, Align, Data, IsLast, Inside, Cut, GrowLast;
    HeadFacts(p);
    LastIsLast(p, ptr, size);
    GrowIsUse(p, ptr, size, newSize);
    GrownInside(p, ptr, size, newSize);
    forall a | a in p.blocks && a != ptr ensures a + p.blocks[a] <= ptr || ptr + newSize <= a {
      GrowClear(p, ptr, size, newSize, a);
    }
    UsedKeeps(p, newSize - size, ptr, newSize);
  }

  lemma AlignTwice(size: nat)
    requires size < WORD
    ensures Align(size) <= WORD - 8 && Align(Align(size)) == Align(size)
  {
  }

  /** Nothing about the old blocks is lost, and the answer has at least the new size. */
  ghost predicate Kept(p: Pool, r: Allocation, original: Option<nat>, newSize: nat) {
    && Valid(r.pool)
    && r.pool.header == p.header && r.pool.chunkCapacity == p.chunkCapacity && r.pool.user == p.user
    && (forall a | a in p.blocks :: a in r.pool.blocks && p.blocks[a] <= r.pool.blocks[a])
    && (forall a | a in p.blocks && Some(a) != original :: r.pool.blocks[a] == p.blocks[a])
    && r.pool.blocks.Keys == p.blocks.Keys + (if r.ptr.Some? then {r.ptr.value} else {})
    && (r.ptr.None? ==> r.pool == p)
    && (r.ptr.Some? ==>
          && r.ptr.value in r.pool.blocks && 0 < newSize <= r.pool.blocks[r.ptr.value]
          && (r.ptr == original || r.ptr.value !in p.blocks))
  }

  lemma GrownKept(p: Pool, r: Pool, ptr: nat, size: nat, asked: nat)
    requires Valid(r) && ptr in p.blocks && p.blocks[ptr] <= size && 0 < asked <= size
    requires r == p.(chunks := r.chunks, blocks := p.blocks[ptr := size])
    ensures Kept(p, Allocation(r, Some(ptr)), Some(ptr), asked)
  {
    hide Valid;
  }

  lemma GrowKept(p: Pool, ptr: nat, size: nat, newSize: nat, asked: nat)
    requires Valid(p) && ptr in p.blocks && p.chunks != []
    requires size <= p.blocks[ptr] && size <= newSize && (newSize - size) % 8 == 0 && 0 < asked <= newSize
    requires CanGrow(p, ptr, size, newSize) && p.chunks[0].size + (newSize - size) < WORD
    ensures Kept(p, Allocation(GrowLast(p, ptr, size, newSize), Some(ptr)), Some(ptr), asked)
  {
    HeadFacts(p);
    RoomExact(p.chunks[0], newSize - size);
    hide Align, Valid, IsLast, HasRoom;
    GrowLastKeeps(p, ptr, size, newSize);
    GrownKept(p, GrowLast(p, ptr, size, newSize), ptr, newSize, asked);
    hide Kept;
  }

  lemma NewKept(p: Pool, original: Option<nat>, size: nat, offer: Option<nat>)
    requires Valid(p) && size < WORD && Exact(p, size, offer) && Served(p, size, offer)
    ensures Kept(p, Allocated(p, size, offer), original, size)
  {
    MallocKeeps(p, size, offer);
    hide Valid, Allocated, Exact, Served, Align;
  }

  lemma SameRequest(p: Pool, size: nat, offer: Option<nat>)
    requires size < WORD && Served(p, size, offer)
    ensures Served(p, Align(size), offer)
    ensures size <= WORD - 8 ==> size <= Align(size)
  {
    AlignExact(size);
    AlignTwice(size);
    hide Align;
  }

  lemma MultiplesApart(size: nat, more: nat)
    requires size < WORD && more < WORD && Align(size) <= Align(more)
    ensures (Align(more) - Align(size)) % 8 == 0
  {
    hide Align;
  }

  lemma NothingKept(p: Pool, original: Option<nat>, newSize: nat)
    requires Valid(p)
    ensures Kept(p, Allocation(p, None), original, newSize)
  {
    hide Valid;
  }

  lemma UnchangedKept(p: Pool, original: Option<nat>, newSize: nat)
    requires Valid(p)
    requires original.Some? && original.value in p.blocks && 0 < newSize <= p.blocks[original.value]
    ensures Kept(p, Allocation(p, original), original, newSize)
  {
    hide Valid;
  }

  lemma KeptLess(p: Pool, r: Allocation, original: Option<nat>, more: nat, newSize: nat)
    requires Kept(p, r, original, more) && 0 < newSize <= more
    ensures Kept(p, r, original, newSize)
  {
    hide Valid;
  }

  /** `Realloc` keeps every block, and gives one of at least the new size: the old one, grown
    * or not, or a new one. */
  lemma ReallocKeeps(p: Pool, original: Option<nat>, originalSize: nat, newSize: nat, offer: Option<nat>)
    requires Valid(p) && Truthful(p, original, originalSize) && newSize < WORD
    requires original.Some? ==> p.chunks != []
    requires ExactRealloc(p, original, originalSize, newSize, offer) && Served(p, newSize, offer)
    ensures Kept(p, Reallocated(p, original, originalSize, newSize, offer), original, newSize)
  {
    SameRequest(p, newSize, offer);
    hide Align, Valid, Exact, Served, Allocated, CanGrow, GrowLast, Kept;
    var size, more := Align(originalSize), Align(newSize);
    if original.None? {
      NewKept(p, original, newSize, offer);
    } else if newSize == 0 {
      NothingKept(p, original, newSize);
    } else if size >= more {
      UnchangedKept(p, original, newSize);
    } else if CanGrow(p, original.value, size, more) {
      MultiplesApart(originalSize, newSize);
      GrowKept(p, original.value, size, more, newSize);
    } else {
      NewKept(p, original, more, offer);
      KeptLess(p, Allocated(p, more, offer), original, more, newSize);
    }
  }

  /** A block grown past the end of the address space is in no chunk. */
  lemma WrappedGrowthBreaks(p: Pool, ptr: nat, size: nat, newSize: nat)
    requires Valid(p) && p.chunks != [] && size <= newSize && IsLast(p, ptr, size)
    requires p.chunks[0].size + (newSize - size) >= WORD
    ensures !Valid(GrowLast(p, ptr, size, newSize))
  {
    HeadFacts(p);
    var r := GrowLast(p, ptr, size, newSize);
    if Valid(r) {
      assert r.blocks[ptr] == newSize;
      BlockSmall(r, ptr);
      hide Valid, Align;
    }
  }

  lemma ReallocBreaks(p: Pool, original: Option<nat>, originalSize: nat, newSize: nat, offer: Option<nat>)
    requires Valid(p) && Truthful(p, original, originalSize) && newSize < WORD
    requires original.Some? ==> p.chunks != []
    requires !ExactRealloc(p, original, originalSize, newSize, offer)
    ensures var r := Reallocated(p, original, originalSize, newSize, offer);
            !(Valid(r.pool) && Holds(r, newSize))
  {
    AlignExact(newSize);
    AlignTwice(newSize);
    var size, more := Align(originalSize), Align(newSize);
    hide Align, Valid, Exact, Allocated, GrowLast, IsLast, HasRoom;
    if original.None? {
      MallocBreaks(p, newSize, offer);
    } else if newSize > WORD - 8 {
      BlockSmall(p, original.value);
    } else if CanGrow(p, original.value, size, more) {
      WrappedGrowthBreaks(p, original.value, size, more);
    } else {
      MallocBreaks(p, more, offer);
    }
  }

  lemma KeptHolds(p: Pool, r: Allocation, original: Option<nat>, newSize: nat)
    requires Kept(p, r, original, newSize)
    ensures Valid(r.pool) && Holds(r, newSize)
  {
    hide Valid;
  }

  /** The same holds of `Realloc`, given the truth about the old block. */
  lemma ReallocExact(p: Pool, original: Option<nat>, originalSize: nat, newSize: nat, offer: Option<nat>)
    requires Valid(p) && Truthful(p, original, originalSize) && newSize < WORD
    requires original.Some? ==> p.chunks != []
    requires Served(p, newSize, offer)
    ensures var r := Reallocated(p, original, originalSize, newSize, offer);
            Valid(r.pool) && Holds(r, newSize) <==> ExactRealloc(p, original, originalSize, newSize, offer)
  {
    hide Valid, Holds, Served, Reallocated, ExactRealloc, Kept, Align;
    if ExactRealloc(p, original, originalSize, newSize, offer) {
      ReallocKeeps(p, original, originalSize, newSize, offer);
      KeptHolds(p, Reallocated(p, original, originalSize, newSize, offer), original, newSize);
    } else {
      ReallocBreaks(p, original, originalSize, newSize, offer);
    }
  }

  lemma ClearKeeps(p: Pool)
    requires Valid(p)
    ensures Valid(Cleared(p))
    ensures Cleared(p).chunks == [] || (|Cleared(p).chunks| == 1 && Some(Cleared(p).chunks[0].addr) == p.user)
  {
    if p.user.Some? {
      assert ChunkValid(p, p.chunks[|p.chunks| - 1]);
    }
  }

  // ---------- Sizes ----------

  function SumSize(chunks: seq<Chunk>): nat {
    if chunks == [] then 0 else SumSize(chunks[..|chunks| - 1]) + chunks[|chunks| - 1].size
  }

  function SumCapacity(chunks: seq<Chunk>): nat {
    if chunks == [] then 0 else SumCapacity(chunks[..|chunks| - 1]) + chunks[|chunks| - 1].capacity
  }

  lemma {:induction false} SizeWithinCapacity(chunks: seq<Chunk>)
    requires forall i | 0 <= i < |chunks| :: chunks[i].size <= chunks[i].capacity
    ensures SumSize(chunks) <= SumCapacity(chunks)
  {
    if chunks != [] {
      SizeWithinCapacity(chunks[..|chunks| - 1]);
    }
  }

  // ---------- Bytes ----------

  type Memory = nat -> bv8

  function ByteAt(memory: Memory, block: nat, i: nat): bv8 {
    memory(block + i)
  }

  ghost predicate Copied(before: Memory, after: Memory, to: nat, from: nat, n: nat) {
    && (forall a: nat | to <= a < to + n :: after(a) == before(from + (a - to)))
    && (forall a: nat | a < to || to + n <= a :: after(a) == before(a))
  }

  /** `memcpy` */
  function Copy(memory: Memory, to: nat, from: nat, n: nat): Memory {
    (a: nat) => if to <= a < to + n then memory(from + (a - to)) else memory(a)
  }

  lemma CopyWithin(memory: Memory, to: nat, from: nat, n: nat, a: nat)
    requires to <= a < to + n
    ensures Copy(memory, to, from, n)(a) == memory(from + (a - to))
  {
  }

  lemma CopyOutside(memory: Memory, to: nat, from: nat, n: nat, a: nat)
    requires a < to || to + n <= a
    ensures Copy(memory, to, from, n)(a) == memory(a)
  {
  }

  lemma CopyCopies(memory: Memory, to: nat, from: nat, n: nat)
    ensures Copied(memory, Copy(memory, to, from, n), to, from, n)
  {
    hide Copy;
    var after := Copy(memory, to, from, n);
    forall a: nat | to <= a < to + n ensures after(a) == memory(from + (a - to)) {
      CopyWithin(memory, to, from, n, a);
    }
    forall a: nat | a < to || to + n <= a ensures after(a) == memory(a) {
      CopyOutside(memory, to, from, n, a);
    }
  }

  /** Whether `Realloc` gives the block another place. */
  predicate Moves(p: Pool, original: Option<nat>, originalSize: nat, newSize: nat, offer: Option<nat>)
    requires originalSize < WORD && newSize < WORD
    requires original.Some? ==> p.chunks != []
  {
    && original.Some? && Align(originalSize) < Align(newSize)
    && !CanGrow(p, original.value, Align(originalSize), Align(newSize))
    && Reallocated(p, original, originalSize, newSize, offer).ptr.Some?
  }

  /** The memory `Realloc` leaves. */
  function Recopied(p: Pool, memory: Memory, original: Option<nat>, originalSize: nat, newSize: nat, offer: Option<nat>): Memory
    requires originalSize < WORD && newSize < WORD
    requires original.Some? ==> p.chunks != []
  {
    if Moves(p, original, originalSize, newSize, offer) then
      Copy(memory, Reallocated(p, original, originalSize, newSize, offer).ptr.value, original.value, Align(originalSize))
    else memory
  }

  /** The block answered holds what the old one held, and every block there was keeps its own. */
  ghost predicate BytesSafe(p: Pool, original: Option<nat>, originalSize: nat, ptr: Option<nat>, before: Memory, after: Memory) {
    && (original.Some? && ptr.Some? ==>
          forall i: nat | i < originalSize :: ByteAt(after, ptr.value, i) == ByteAt(before, original.value, i))
    && (forall a, i: nat | a in p.blocks && i < p.blocks[a] :: ByteAt(after, a, i) == ByteAt(before, a, i))
  }

  /** A new block has room of its own. */
  lemma NewApart(p: Pool, r: Allocation, original: Option<nat>, newSize: nat, a: nat)
    requires Kept(p, r, original, newSize) && r.ptr.Some? && r.ptr.value !in p.blocks && a in p.blocks
    ensures r.ptr.value + newSize <= a || a + p.blocks[a] <= r.ptr.value
  {
    hide Chunked, UserKept, InSome;
    assert Separate(r.pool.blocks);
    hide Valid;
  }

  lemma ByteCopied(before: Memory, after: Memory, to: nat, from: nat, n: nat, i: nat)
    requires Copied(before, after, to, from, n) && i < n
    ensures ByteAt(after, to, i) == ByteAt(before, from, i)
  {
    var a: nat := to + i;
    assert after(a) == before(from + (a - to));
    assert from + (a - to) == from + i;
  }

  lemma ByteElsewhere(before: Memory, after: Memory, to: nat, from: nat, n: nat, block: nat, i: nat)
    requires Copied(before, after, to, from, n) && (block + i < to || to + n <= block + i)
    ensures ByteAt(after, block, i) == ByteAt(before, block, i)
  {
    var a: nat := block + i;
    assert after(a) == before(a);
  }

  lemma BytesKept(p: Pool, r: Allocation, original: nat, size: nat, newSize: nat, before: Memory, after: Memory)
    requires Kept(p, r, Some(original), newSize) && original in p.blocks && size <= newSize
    requires r.ptr.Some? && r.ptr.value !in p.blocks
    requires Copied(before, after, r.ptr.value, original, size)
    ensures BytesSafe(p, Some(original), size, r.ptr, before, after)
  {
    hide Kept, Copied, ByteAt;
    forall i: nat | i < size ensures ByteAt(after, r.ptr.value, i) == ByteAt(before, original, i) {
      ByteCopied(before, after, r.ptr.value, original, size, i);
    }
    forall a, i: nat | a in p.blocks && i < p.blocks[a] ensures ByteAt(after, a, i) == ByteAt(before, a, i) {
      NewApart(p, r, Some(original), newSize, a);
      ByteElsewhere(before, after, r.ptr.value, original, size, a, i);
    }
  }

  lemma MovedIsNew(p: Pool, original: nat, originalSize: nat, newSize: nat, offer: Option<nat>)
    requires p.chunks != [] && originalSize < WORD && newSize < WORD
    requires Moves(p, Some(original), originalSize, newSize, offer)
    ensures Reallocated(p, Some(original), originalSize, newSize, offer) == Allocated(p, Align(newSize), offer)
    ensures newSize > 0
    ensures ExactRealloc(p, Some(original), originalSize, newSize, offer) ==> Exact(p, Align(newSize), offer)
  {
    hide Allocated, CanGrow, Exact;
  }

  lemma ReallocMovesBytes(p: Pool, original: nat, originalSize: nat, newSize: nat, offer: Option<nat>, memory: Memory)
    requires Valid(p) && Truthful(p, Some(original), originalSize) && newSize < WORD && p.chunks != []
    requires ExactRealloc(p, Some(original), originalSize, newSize, offer) && Served(p, newSize, offer)
    requires Moves(p, Some(original), originalSize, newSize, offer)
    ensures var ptr := Reallocated(p, Some(original), originalSize, newSize, offer).ptr;
            BytesSafe(p, Some(original), Align(originalSize), ptr, memory,
                      Recopied(p, memory, Some(original), originalSize, newSize, offer))
  {
    var r := Reallocated(p, Some(original), originalSize, newSize, offer);
    var size, more := Align(originalSize), Align(newSize);
    var after := Recopied(p, memory, Some(original), originalSize, newSize, offer);
    MovedIsNew(p, original, originalSize, newSize, offer);
    SameRequest(p, newSize, offer);
    assert original in p.blocks && size <= more && r.ptr.Some?;
    assert after == Copy(memory, r.ptr.value, original, size);
    hide *;
    NewKept(p, Some(original), more, offer);
    MallocKeeps(p, more, offer);
    CopyCopies(memory, r.ptr.value, original, size);
    BytesKept(p, r, original, size, more, memory, after);
  }

  lemma NothingMoved(p: Pool, original: Option<nat>, originalSize: nat, newSize: nat, offer: Option<nat>, memory: Memory)
    requires originalSize < WORD && newSize < WORD
    requires original.Some? ==> p.chunks != []
    requires !Moves(p, original, originalSize, newSize, offer)
    ensures var ptr := Reallocated(p, original, originalSize, newSize, offer).ptr;
            && Recopied(p, memory, original, originalSize, newSize, offer) == memory
            && (original.Some? && ptr.Some? ==> ptr == original)
  {
    hide Allocated, CanGrow, GrowLast, Align;
  }

  /** In every case of `Realloc` the first bytes of the block are the old ones, as many as the
    * caller had asked for, and every other block keeps its own. */
  lemma ReallocKeepsBytes(p: Pool, original: Option<nat>, originalSize: nat, newSize: nat, offer: Option<nat>, memory: Memory)
    requires Valid(p) && Truthful(p, original, originalSize) && newSize < WORD
    requires original.Some? ==> p.chunks != []
    requires ExactRealloc(p, original, originalSize, newSize, offer) && Served(p, newSize, offer)
    ensures BytesSafe(p, original, originalSize, Reallocated(p, original, originalSize, newSize, offer).ptr, memory,
                      Recopied(p, memory, original, originalSize, newSize, offer))
  {
    AlignExact(originalSize);
    hide Valid, Align, ExactRealloc, Served, Moves, Recopied, Reallocated;
    if Moves(p, original, originalSize, newSize, offer) {
      assert original.Some? by {
        MovesSome(p, original, originalSize, newSize, offer);
      }
      ReallocMovesBytes(p, original.value, originalSize, newSize, offer, memory);
    } else {
      NothingMoved(p, original, originalSize, newSize, offer, memory);
    }
  }

  lemma MovesSome(p: Pool, original: Option<nat>, originalSize: nat, newSize: nat, offer: Option<nat>)
    requires originalSize < WORD && newSize < WORD
    requires original.Some? ==> p.chunks != []
    requires Moves(p, original, originalSize, newSize, offer)
    ensures original.Some?
  {
  }

  // ---------- Runs ----------

  datatype Request =
    | Allocate(size: nat, offer: Option<nat>)
    | Reallocate(original: Option<nat>, originalSize: nat, newSize: nat, newOffer: Option<nat>)
    | Write(block: nat, i: nat, byte: bv8)
    | Clear

  /** The pool, the memory, and of every block what its users have written and not lost. */
  datatype Heap = Heap(pool: Pool, memory: Memory, contents: map<nat, map<nat, bv8>>)

  /** What a caller may ask: truthful sizes, and none so large that a sum wraps; and writes
    * within a block. */
  predicate Legal(h: Heap, r: Request) {
    var p := h.pool;
    match r
    case Allocate(size, offer) => size < WORD && Exact(p, size, offer) && Served(p, size, offer)
    case Reallocate(original, originalSize, newSize, offer) =>
      && Truthful(p, original, originalSize) && newSize < WORD
      && (original.Some? ==> p.chunks != [])
      && ExactRealloc(p, original, originalSize, newSize, offer) && Served(p, newSize, offer)
    case Write(block, i, _) => block in h.contents && block in p.blocks && i < p.blocks[block]
    case Clear => true
  }

  function FirstBytes(contents: map<nat, bv8>, size: nat): map<nat, bv8> {
    map i | i in contents && i < size :: contents[i]
  }

  function Allocating(h: Heap, size: nat, offer: Option<nat>): Heap
    requires size < WORD
  {
    var r := Allocated(h.pool, size, offer);
    Heap(r.pool, h.memory, if r.ptr.None? then h.contents else h.contents[r.ptr.value := map[]])
  }

  function Reallocating(h: Heap, original: Option<nat>, originalSize: nat, newSize: nat, offer: Option<nat>): Heap
    requires originalSize < WORD && newSize < WORD
    requires original.Some? ==> h.pool.chunks != []
  {
    var r := Reallocated(h.pool, original, originalSize, newSize, offer);
    Heap(r.pool, Recopied(h.pool, h.memory, original, originalSize, newSize, offer),
         if r.ptr.None? || r.ptr == original then h.contents
         else if original.Some? && original.value in h.contents then
           h.contents[r.ptr.value := FirstBytes(h.contents[original.value], originalSize)]
         else h.contents[r.ptr.value := map[]])
  }

  function Stored(memory: Memory, at: nat, byte: bv8): Memory {
    (a: nat) => if a == at then byte else memory(a)
  }

  function Writing(h: Heap, block: nat, i: nat, byte: bv8): Heap
    requires block in h.contents
  {
    var bytes: map<nat, bv8> := h.contents[block][i := byte];
    h.(memory := Stored(h.memory, block + i, byte), contents := h.contents[block := bytes])
  }

  function After(h: Heap, r: Request): Heap
    requires Legal(h, r)
  {
    match r
    case Allocate(size, offer) => Allocating(h, size, offer)
    case Reallocate(original, originalSize, newSize, offer) => Reallocating(h, original, originalSize, newSize, offer)
    case Write(block, i, byte) => Writing(h, block, i, byte)
    case Clear => h.(pool := Cleared(h.pool), contents := map[])
  }

  /** The heap after the requests, as long as all are legal. */
  function Run(h: Heap, requests: seq<Request>): Option<Heap> {
    if requests == [] then Some(h)
    else
      var before := Run(h, requests[..|requests| - 1]);
      var r := requests[|requests| - 1];
      if before.Some? && Legal(before.value, r) then Some(After(before.value, r)) else None
  }

  /** Every byte that is recorded of a block is in the block. */
  ghost predicate Recorded(h: Heap) {
    && h.contents.Keys == h.pool.blocks.Keys
    && forall a, i | a in h.contents && i in h.contents[a] ::
         i < h.pool.blocks[a] && ByteAt(h.memory, a, i) == h.contents[a][i]
  }

  /** Nothing new is recorded if the block stays. */
  lemma StayedRecorded(h: Heap, r: Allocation, original: Option<nat>, newSize: nat, after: Heap)
    requires Recorded(h) && Kept(h.pool, r, original, newSize)
    requires r.ptr.None? || (r.ptr == original && original.value in h.pool.blocks)
    requires BytesSafe(h.pool, None, 0, r.ptr, h.memory, after.memory)
    requires after.pool == r.pool && after.contents == h.contents
    ensures Recorded(after)
  {
    hide Valid, ByteAt;
    assert r.pool.blocks.Keys == h.pool.blocks.Keys;
  }

  /** A new block begins with what is taken along. */
  lemma NewRecorded(h: Heap, r: Allocation, original: Option<nat>, newSize: nat, after: Heap, bytes: map<nat, bv8>)
    requires Recorded(h) && Kept(h.pool, r, original, newSize)
    requires r.ptr.Some? && r.ptr.value !in h.pool.blocks
    requires BytesSafe(h.pool, None, 0, r.ptr, h.memory, after.memory)
    requires forall i | i in bytes :: i < r.pool.blocks[r.ptr.value] && ByteAt(after.memory, r.ptr.value, i) == bytes[i]
    requires after.pool == r.pool && after.contents == h.contents[r.ptr.value := bytes]
    ensures Recorded(after)
  {
    hide Valid, ByteAt;
    assert r.pool.blocks.Keys == h.pool.blocks.Keys + {r.ptr.value};
  }

  lemma AllocatingRecorded(h: Heap, size: nat, offer: Option<nat>)
    requires Valid(h.pool) && Recorded(h) && Legal(h, Allocate(size, offer))
    ensures Valid(Allocating(h, size, offer).pool) && Recorded(Allocating(h, size, offer))
  {
    var r, after := Allocated(h.pool, size, offer), Allocating(h, size, offer);
    MallocKeeps(h.pool, size, offer);
    NewKept(h.pool, None, size, offer);
    hide Valid, Allocated, Exact, Served, ByteAt, Align, Recorded, Kept;
    if r.ptr.None? {
      StayedRecorded(h, r, None, size, after);
    } else {
      NewRecorded(h, r, None, size, after, map[]);
    }
  }

  lemma ReallocatingRecorded(h: Heap, original: Option<nat>, originalSize: nat, newSize: nat, offer: Option<nat>)
    requires Valid(h.pool) && Recorded(h) && Legal(h, Reallocate(original, originalSize, newSize, offer))
    ensures var r := Reallocating(h, original, originalSize, newSize, offer); Valid(r.pool) && Recorded(r)
  {
    var p := h.pool;
    var r := Reallocated(p, original, originalSize, newSize, offer);
    var after := Reallocating(h, original, originalSize, newSize, offer);
    ReallocKeeps(p, original, originalSize, newSize, offer);
    ReallocKeepsBytes(p, original, originalSize, newSize, offer, h.memory);
    MovedSize(h, original, originalSize, newSize, offer);
    hide Valid, Reallocated, ExactRealloc, Served, ByteAt, Align, Recopied;
    assert Valid(r.pool);
    if r.ptr.None? || r.ptr == original {
      StayedRecorded(h, r, original, newSize, after);
    } else if original.Some? {
      NewRecorded(h, r, original, newSize, after, FirstBytes(h.contents[original.value], originalSize));
    } else {
      NewRecorded(h, r, original, newSize, after, map[]);
    }
  }

  /** A new place has room for what is taken along. */
  lemma MovedSize(h: Heap, original: Option<nat>, originalSize: nat, newSize: nat, offer: Option<nat>)
    requires Valid(h.pool) && Legal(h, Reallocate(original, originalSize, newSize, offer))
    ensures var r := Reallocated(h.pool, original, originalSize, newSize, offer);
            original.Some? && r.ptr.Some? && r.ptr != original ==>
              r.ptr.value in r.pool.blocks && originalSize <= r.pool.blocks[r.ptr.value]
  {
    var p := h.pool;
    var r := Reallocated(p, original, originalSize, newSize, offer);
    if original.Some? && r.ptr.Some? && r.ptr != original {
      AlignExact(originalSize);
      AlignTwice(newSize);
      hide Valid, Align, Exact, Served, Allocated, CanGrow, GrowLast;
      assert Align(originalSize) < Align(newSize) && r == Allocated(p, Align(newSize), offer);
      SameRequest(p, newSize, offer);
      MallocKeeps(p, Align(newSize), offer);
    }
  }

  lemma StoredByte(memory: Memory, at: nat, byte: bv8, a: nat, i: nat)
    ensures ByteAt(Stored(memory, at, byte), a, i) == if a + i == at then byte else ByteAt(memory, a, i)
  {
  }

  lemma BytesApart(blocks: map<nat, nat>, a: nat, i: nat, b: nat, j: nat)
    requires Separate(blocks) && a in blocks && b in blocks && a != b && i < blocks[a] && j < blocks[b]
    ensures a + i != b + j
  {
  }

  lemma WrittenByte(h: Heap, block: nat, i: nat, byte: bv8, a: nat, j: nat)
    requires Separate(h.pool.blocks) && Recorded(h) && block in h.pool.blocks && i < h.pool.blocks[block]
    requires var r := Writing(h, block, i, byte); a in r.contents && j in r.contents[a]
    ensures var r := Writing(h, block, i, byte); j < r.pool.blocks[a] && ByteAt(r.memory, a, j) == r.contents[a][j]
  {
    hide Stored, ByteAt, Separate;
    StoredByte(h.memory, block + i, byte, a, j);
    if a != block {
      BytesApart(h.pool.blocks, a, j, block, i);
    }
  }

  lemma WritingRecorded(h: Heap, block: nat, i: nat, byte: bv8)
    requires Valid(h.pool) && Recorded(h) && block in h.pool.blocks && i < h.pool.blocks[block]
    ensures Recorded(Writing(h, block, i, byte))
  {
    assert Separate(h.pool.blocks);
    var r := Writing(h, block, i, byte);
    assert r.contents.Keys == r.pool.blocks.Keys;
    forall a, j | a in r.contents && j in r.contents[a]
      ensures j < r.pool.blocks[a] && ByteAt(r.memory, a, j) == r.contents[a][j]
    {
      WrittenByte(h, block, i, byte, a, j);
    }
    hide Valid, Writing, Separate, ByteAt;
  }

  /** Over any sequence of legal requests, every block handed out since the last clearing lies
    * in the used room of a chunk, no two overlap, no more is in use than there is, and every
    * byte written to a block is found there, also after the block has moved. */
  lemma {:induction false} RunKeeps(h: Heap, requests: seq<Request>)
    requires Valid(h.pool) && Recorded(h) && Run(h, requests).Some?
    ensures var r := Run(h, requests).value; Valid(r.pool) && Recorded(r)
  {
    if requests != [] {
      var before, request := requests[..|requests| - 1], requests[|requests| - 1];
      RunKeeps(h, before);
      var q := Run(h, before).value;
      assert Run(h, requests).value == After(q, request);
      hide Valid, Recorded, Run, Allocating, Reallocating, Writing, Cleared, Legal;
      match request {
        case Allocate(size, offer) => AllocatingRecorded(q, size, offer);
        case Reallocate(original, originalSize, newSize, offer) =>
          ReallocatingRecorded(q, original, originalSize, newSize, offer);
        case Write(block, i, byte) => WriteStep(q, block, i, byte);
        case Clear =>
          ClearKeeps(q.pool);
          ClearRecorded(q);
      }
    }
  }

  lemma WriteStep(h: Heap, block: nat, i: nat, byte: bv8)
    requires Valid(h.pool) && Recorded(h) && Legal(h, Write(block, i, byte))
    ensures Writing(h, block, i, byte).pool == h.pool && Recorded(Writing(h, block, i, byte))
  {
    WritingRecorded(h, block, i, byte);
    hide Valid, Recorded;
  }

  lemma ClearRecorded(h: Heap)
    ensures Recorded(h.(pool := Cleared(h.pool), contents := map[]))
  {
  }

  /** What a well-formed pool promises its users. */
  ghost predicate Sound(h: Heap) {
    var p := h.pool;
    && Separate(p.blocks)
    && (forall ptr | ptr in p.blocks :: InSome(p.header, p.chunks, ptr, p.blocks[ptr]))
    && SumSize(p.chunks) <= SumCapacity(p.chunks)
    && Recorded(h)
  }

  lemma ValidSound(h: Heap)
    requires Valid(h.pool) && Recorded(h)
    ensures Sound(h)
  {
    var p := h.pool;
    assert forall i | 0 <= i < |p.chunks| :: ChunkValid(p, p.chunks[i]);
    SizeWithinCapacity(p.chunks);
    hide Recorded, SumSize, SumCapacity, Align;
  }

  /** A new pool, empty or over a buffer, is well-formed. */
  lemma NewPools(header: Header, chunkCapacity: nat, buffer: nat, size: nat)
    requires header % 8 == 0 && 0 < header < size && chunkCapacity < WORD && buffer + size <= WORD
    ensures Valid(Fresh(header, chunkCapacity))
    ensures Valid(OverBuffer(buffer, size, header, chunkCapacity))
  {
  }

  /** So all this holds of every pool, from its construction on, empty or over a buffer. */
  lemma EveryRun(header: Header, chunkCapacity: nat, buffer: nat, size: nat, memory: Memory, requests: seq<Request>)
    requires header % 8 == 0 && 0 < header < size && chunkCapacity < WORD && buffer + size <= WORD
    ensures var r := Run(Heap(Fresh(header, chunkCapacity), memory, map[]), requests);
            r.Some? ==> Sound(r.value)
    ensures var r := Run(Heap(OverBuffer(buffer, size, header, chunkCapacity), memory, map[]), requests);
            r.Some? ==> Sound(r.value)
  {
    NewPools(header, chunkCapacity, buffer, size);
    var empty := Heap(Fresh(header, chunkCapacity), memory, map[]);
    var over := Heap(OverBuffer(buffer, size, header, chunkCapacity), memory, map[]);
    assert Recorded(empty) && Recorded(over);
    hide Valid, Recorded, Run, Sound;
    if Run(empty, requests).Some? {
      RunKeeps(empty, requests);
      ValidSound(Run(empty, requests).value);
    }
    if Run(over, requests).Some? {
      RunKeeps(over, requests);
      ValidSound(Run(over, requests).value);
    }
  }

  // ---------- The allocator ----------

  class MemoryPoolAllocator {
    const header: Header
    const chunkCapacity: nat
    const userBuffer: Option<nat>
    var chunks: seq<Chunk>
    var memory: Memory
    ghost var blocks: map<nat, nat>

    ghost function Abs(): Pool
      reads this
    {
      Pool(header, chunkCapacity, userBuffer, chunks, blocks)
    }

    constructor (header: Header, chunkSize: nat, memory: Memory)
      ensures Abs() == Fresh(header, chunkSize) && this.memory == memory
    {
      this.header, chunkCapacity, userBuffer, chunks := header, chunkSize, None, [];
      this.memory := memory;
      blocks := map[];
    }

    constructor WithBuffer(buffer: nat, size: nat, header: Header, chunkSize: nat, memory: Memory)
      requires size > header
      ensures Abs() == OverBuffer(buffer, size, header, chunkSize) && this.memory == memory
    {
      this.header, chunkCapacity, userBuffer := header, chunkSize, Some(buffer);
      chunks := [Chunk(buffer, size, size - header, 0)];
      this.memory := memory;
      blocks := map[];
    }

    method AddChunk(capacity: nat, offer: Option<nat>) returns (ok: bool)
      modifies this`chunks
      ensures Abs() == WithChunk(old(Abs()), capacity, offer)
      ensures ok == offer.Some?
    {
      if offer.Some? {
        var chunk := Chunk(offer.value, (Align(header) + capacity) % WORD, capacity, 0);
        chunks := [chunk] + chunks;
        return true;
      }
      return false;
    }

    method Malloc(size: nat, offer: Option<nat>) returns (ptr: Option<nat>)
      requires size < WORD
      modifies this`chunks, this`blocks
      ensures Allocation(Abs(), ptr) == Allocated(old(Abs()), size, offer)
    {
      hide Align, Cut;
      if size == 0 { return None; }
      var aligned := Align(size);
      if chunks == [] || (chunks[0].size + aligned) % WORD > chunks[0].capacity {
        var ok := AddChunk(if chunkCapacity > aligned then chunkCapacity else aligned, offer);
        if !ok { return None; }
      }
      ptr := CutBlock(aligned);
    }

    /** The end of `Malloc`: the next bytes of the newest chunk. */
    method CutBlock(size: nat) returns (ptr: Option<nat>)
      requires chunks != []
      modifies this`chunks, this`blocks
      ensures Allocation(Abs(), ptr) == Cut(old(Abs()), size)
    {
      var buffer := chunks[0].addr + Align(header) + chunks[0].size;
      chunks := [chunks[0].(size := (chunks[0].size + size) % WORD)] + chunks[1..];
      blocks := blocks[buffer := size];
      return Some(buffer);
    }

    /** What the old block held is kept, wherever the block is then, and every other block
      * keeps its own. */
    method Realloc(original: Option<nat>, originalSize: nat, newSize: nat, offer: Option<nat>)
      returns (ptr: Option<nat>)
      requires originalSize < WORD && newSize < WORD
      requires original.Some? ==> chunks != []
      modifies this
      ensures Allocation(Abs(), ptr) == Reallocated(old(Abs()), original, originalSize, newSize, offer)
      ensures memory == Recopied(old(Abs()), old(memory), original, originalSize, newSize, offer)
      ensures old(Valid(Abs()) && Truthful(Abs(), original, originalSize)
                  && ExactRealloc(Abs(), original, originalSize, newSize, offer) && Served(Abs(), newSize, offer)) ==>
                BytesSafe(old(Abs()), original, originalSize, ptr, old(memory), memory)
    {
      ghost var p := Abs();
      ptr := ReallocBlock(original, originalSize, newSize, offer);
      if Valid(p) && Truthful(p, original, originalSize)
         && ExactRealloc(p, original, originalSize, newSize, offer) && Served(p, newSize, offer) {
        ReallocKeepsBytes(p, original, originalSize, newSize, offer, old(memory));
      }
      hide *;
    }

    method ReallocBlock(original: Option<nat>, originalSize: nat, newSize: nat, offer: Option<nat>)
      returns (ptr: Option<nat>)
      requires originalSize < WORD && newSize < WORD
      requires original.Some? ==> chunks != []
      modifies this
      ensures Allocation(Abs(), ptr) == Reallocated(old(Abs()), original, originalSize, newSize, offer)
      ensures memory == Recopied(old(Abs()), old(memory), original, originalSize, newSize, offer)
    {
      hide Allocated, Align, Copy;
      if original.None? {
        ptr := Malloc(newSize, offer);
        return;
      }
      if newSize == 0 { return None; }
      var size, more := Align(originalSize), Align(newSize);
      if size >= more { return original; }
      if original.value == chunks[0].addr + Align(header) + chunks[0].size - size {
        var increment := more - size;
        if (chunks[0].size + increment) % WORD <= chunks[0].capacity {
          chunks := [chunks[0].(size := (chunks[0].size + increment) % WORD)] + chunks[1..];
          blocks := blocks[original.value := more];
          return original;
        }
      }
      ptr := Malloc(more, offer);
      if ptr.Some? {
        memory := Copy(memory, ptr.value, original.value, size);
      }
    }

    /** The chunks given back are all but the caller's own, each once. */
    method Clear() returns (freed: seq<nat>)
      requires Valid(Abs())
      modifies this`chunks, this`blocks
      ensures Abs() == Cleared(old(Abs())) && Valid(Abs())
      ensures |freed| == |old(chunks)| - |chunks|
      ensures forall k | 0 <= k < |freed| :: freed[k] == old(chunks)[k].addr && Some(freed[k]) != userBuffer
    {
      freed := [];
      ghost var p := Abs();
      ClearKeeps(p);
      while chunks != [] && Some(chunks[0].addr) != userBuffer
        invariant |freed| <= |p.chunks| && chunks == p.chunks[|freed|..]
        invariant userBuffer.Some? ==> chunks != []
        invariant forall k | 0 <= k < |freed| :: freed[k] == p.chunks[k].addr && Some(freed[k]) != userBuffer
        decreases |chunks|
      {
        freed := freed + [chunks[0].addr];
        chunks := chunks[1..];
      }
      if chunks != [] && Some(chunks[0].addr) == userBuffer {
        chunks := [chunks[0].(size := 0)] + chunks[1..];
      }
      blocks := map[];
    }

    method Capacity() returns (capacity: nat)
      ensures capacity == SumCapacity(chunks)
    {
      capacity := 0;
      var c := 0;
      while c != |chunks|
        invariant 0 <= c <= |chunks|
        invariant capacity == SumCapacity(chunks[..c])
        decreases |chunks| - c
      {
        assert chunks[..c + 1][..c] == chunks[..c];
        capacity := capacity + chunks[c].capacity;
        c := c + 1;
      }
      assert chunks[..c] == chunks;
    }

    method Size() returns (size: nat)
      ensures size == SumSize(chunks)
    {
      size := 0;
      var c := 0;
      while c != |chunks|
        invariant 0 <= c <= |chunks|
        invariant size == SumSize(chunks[..c])
        decreases |chunks| - c
      {
        assert chunks[..c + 1][..c] == chunks[..c];
        size := size + chunks[c].size;
        c := c + 1;
      }
      assert chunks[..c] == chunks;
    }
  }
}
