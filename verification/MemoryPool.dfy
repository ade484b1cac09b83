/**
 The free-list allocator.

 Addresses are integers and zero is null.  `words` is the memory the pool's
 pointers live in: each free block and each chunk header starts with the address
 of the next one.  `malloc` is the environment: it supplies the base of a region
 that overlaps no region it has supplied before.
 */
module MemoryPools {
  type Address = int

  const NODE_SIZE: int := 8             // size of a MemoryBlockNode
  const INITIAL_MALLOC_SIZE: nat := 40

  datatype Region = Region(base: Address, end: Address)

  /** Two blocks of this size do not overlap. */
  predicate Clear(a: Address, b: Address, size: int) { a + size <= b || b + size <= a }

  predicate Apart(a: Address, b: Address, c: Address, d: Address) { b <= c || d <= a }

  function NextIn(list: seq<Address>, k: nat): Address
    requires k < |list|
  {
    if k + 1 < |list| then list[k + 1] else 0
  }

  /** `list` are the nodes reached from `head` by following the words, up to null. */
  ghost predicate Linked(words: map<Address, Address>, head: Address, list: seq<Address>) {
    && head == (if list == [] then 0 else list[0])
    && (forall k :: 0 <= k < |list| ==>
          && list[k] != 0 && list[k] in words
          && words[list[k]] == NextIn(list, k))
  }

  predicate Distinct(list: seq<Address>) {
    forall j, k :: 0 <= j < k < |list| ==> list[j] != list[k]
  }

  /** Blocks obtained by the first `k` refills. */
  function Capacity(k: nat): nat {
    if k == 0 then 0 else Capacity(k - 1) + INITIAL_MALLOC_SIZE + (k - 1)
  }

  lemma {:induction false} CapacityClosedForm(k: nat)
    ensures 2 * Capacity(k) == 80 * k + k * (k - 1)
  {
    if k > 0 {
      CapacityClosedForm(k - 1);
      assert k * (k - 1) == (k - 1) * (k - 2) + 2 * (k - 1);
    }
  }

  lemma PushLinked(words: map<Address, Address>, head: Address, list: seq<Address>, x: Address)
    requires Linked(words, head, list) && x != 0 && x !in list
    ensures Linked(words[x := head], x, [x] + list)
  {
    var more, words' := [x] + list, words[x := head];
    forall k | 0 <= k < |more|
      ensures more[k] != 0 && more[k] in words'
      ensures words'[more[k]] == NextIn(more, k)
    {
      if k > 0 {
        assert more[k] == list[k - 1] && list[k - 1] in list;
        assert NextIn(more, k) == NextIn(list, k - 1);
      } else if list != [] {
        assert more[1] == list[0];
      }
    }
  }

  lemma WriteElsewhere(words: map<Address, Address>, head: Address, list: seq<Address>, x: Address, v: Address)
    requires Linked(words, head, list) && x !in list
    ensures Linked(words[x := v], head, list)
  {
    forall k | 0 <= k < |list| ensures words[x := v][list[k]] == words[list[k]] { assert list[k] in list; }
  }

  // ---------------------------------------------------------------------------
  // The pool as a value
  // ---------------------------------------------------------------------------

  datatype Pool = Pool(
    objectSize: int,
    freeListHead: Address,
    listHead: Address,
    mallocTime: nat,
    words: map<Address, Address>,
    free: seq<Address>,          // history: the free list
    chunks: seq<Address>,        // history: the chunk list, newest first
    regions: seq<Region>,        // history: the region of each chunk, oldest first
    live: set<Address>,          // history: blocks handed out and not returned
    home: map<Address, nat>)     // history: the region each block was carved from
  {
    /** The block lies in its region, behind the chunk header. */
    predicate Within(a: Address) {
      && a in home && home[a] < |regions|
      && regions[home[a]].base + NODE_SIZE <= a && a + objectSize <= regions[home[a]].end
    }
  }

  /** A pool for objects of this size; a block is never smaller than a list node. */
  function EmptyPool(size: nat): (p: Pool)
    ensures Inv(p) && size <= p.objectSize && (NODE_SIZE <= size ==> p.objectSize == size)
  {
    Pool(if size < NODE_SIZE then NODE_SIZE else size, 0, 0, 0, map[], [], [], [], {}, map[])
  }

  /** Link the header of a new chunk in front of the chunk list. */
  function AddChunk(p: Pool, base: Address, end: Address): Pool {
    p.(words := p.words[base := p.listHead], listHead := base, mallocTime := p.mallocTime + 1,
       chunks := [base] + p.chunks, regions := p.regions + [Region(base, end)])
  }

  /** Put one block of the newest chunk on the free list. */
  function AddBlock(p: Pool, a: Address): Pool
    requires p.regions != []
  {
    p.(words := p.words[a := p.freeListHead], freeListHead := a, free := [a] + p.free,
       home := p.home[a := |p.regions| - 1])
  }

  /** Carve `n` blocks, starting at `a`. */
  function Carve(p: Pool, a: Address, n: nat): (p': Pool)
    requires p.regions != []
    ensures p'.regions == p.regions
    decreases n
  {
    if n == 0 then p else Carve(AddBlock(p, a), a + p.objectSize, n - 1)
  }

  /** `n` blocks of this size laid end to end. */
  function Span(n: nat, size: int): int { if n == 0 then 0 else size + Span(n - 1, size) }

  lemma {:induction false} SpanIsProduct(n: nat, size: int)
    ensures Span(n, size) == n * size
    ensures 0 <= size ==> 0 <= Span(n, size)
  {
    if n > 0 {
      SpanIsProduct(n - 1, size);
      assert n * size == size + (n - 1) * size;
    }
  }

  function ChunkBlocks(p: Pool): nat { INITIAL_MALLOC_SIZE + p.mallocTime }

  /** One past the region that a refill asks malloc for. */
  function ChunkEnd(p: Pool, base: Address): Address { base + ChunkBlocks(p) * p.objectSize + NODE_SIZE }

  function Refilled(p: Pool, base: Address): Pool {
    Carve(AddChunk(p, base, ChunkEnd(p, base)), base + NODE_SIZE, ChunkBlocks(p))
  }

  function Popped(p: Pool): Pool
    requires p.free != [] && p.free[0] in p.words
  {
    p.(freeListHead := p.words[p.free[0]], free := p.free[1..], live := p.live + {p.free[0]})
  }

  function Pushed(p: Pool, a: Address): Pool {
    p.(words := p.words[a := p.freeListHead], freeListHead := a, free := [a] + p.free, live := p.live - {a})
  }

  // ---------------------------------------------------------------------------
  // The invariant
  // ---------------------------------------------------------------------------

  ghost predicate RegionsOk(p: Pool) {
    && |p.regions| == |p.chunks| == p.mallocTime
    && (forall k :: 0 <= k < |p.regions| ==>
          && 0 < p.regions[k].base && p.regions[k].base + NODE_SIZE <= p.regions[k].end
          && p.regions[k].base == p.chunks[|p.chunks| - 1 - k])
    && (forall j, k :: 0 <= j < k < |p.regions| ==>
          Apart(p.regions[j].base, p.regions[j].end, p.regions[k].base, p.regions[k].end))
  }

  ghost predicate BlocksOk(p: Pool) {
    && NODE_SIZE <= p.objectSize
    && (forall a :: a in p.home ==> p.Within(a))
    && (forall a, b {:trigger Clear(a, b, p.objectSize)} ::
          a in p.home && b in p.home && a != b ==> Clear(a, b, p.objectSize))
    && (forall a :: a in p.live ==> a in p.home && a !in p.free)
    && (forall a :: a in p.free ==> a in p.home)
  }

  ghost predicate ListsOk(p: Pool) {
    && Linked(p.words, p.freeListHead, p.free) && Distinct(p.free)
    && Linked(p.words, p.listHead, p.chunks)
  }

  ghost predicate Sound(p: Pool) { RegionsOk(p) && BlocksOk(p) && ListsOk(p) }

  ghost predicate Inv(p: Pool) {
    Sound(p) && |p.live| + |p.free| == Capacity(p.mallocTime)
  }

  /** What malloc promises about a region: it overlaps none of the earlier ones. */
  ghost predicate FreshRegion(p: Pool, base: Address, end: Address) {
    && 0 < base
    && forall k :: 0 <= k < |p.regions| ==> Apart(p.regions[k].base, p.regions[k].end, base, end)
  }

  /** A block is nobody's chunk header. */
  lemma HeadersClear(p: Pool, a: Address)
    requires RegionsOk(p) && BlocksOk(p) && a in p.home
    ensures a !in p.chunks && 0 < a
  {
    assert p.Within(a);
    forall k | 0 <= k < |p.chunks| ensures p.chunks[k] != a {
      var j := |p.chunks| - 1 - k;
      assert p.regions[j].base == p.chunks[k];
      var h := p.home[a];
      if j < h { assert Apart(p.regions[j].base, p.regions[j].end, p.regions[h].base, p.regions[h].end); }
      else if h < j { assert Apart(p.regions[h].base, p.regions[h].end, p.regions[j].base, p.regions[j].end); }
    }
  }

  lemma AddChunkKeeps(p: Pool, base: Address, end: Address)
    requires Sound(p) && p.free == []
    requires FreshRegion(p, base, end) && base + NODE_SIZE <= end
    ensures var p' := AddChunk(p, base, end); Sound(p')
  {
    assert base !in p.chunks by {
      forall k | 0 <= k < |p.chunks| ensures p.chunks[k] != base {
        assert p.regions[|p.chunks| - 1 - k].base == p.chunks[k];
      }
    }
    PushLinked(p.words, p.listHead, p.chunks, base);
    var p' := AddChunk(p, base, end);
    forall a | a in p'.home ensures p'.Within(a) { assert p.Within(a); }
  }

  /** The address is free for a new block of the newest region. */
  ghost predicate Spare(p: Pool, a: Address) {
    && p.regions != []
    && p.regions[|p.regions| - 1].base + NODE_SIZE <= a
    && a + p.objectSize <= p.regions[|p.regions| - 1].end
    && forall b :: b in p.home ==> Clear(a, b, p.objectSize) && Clear(b, a, p.objectSize)
  }

  lemma AddBlockBlocks(p: Pool, a: Address)
    requires RegionsOk(p) && BlocksOk(p) && Spare(p, a)
    ensures var p' := AddBlock(p, a); RegionsOk(p') && BlocksOk(p') && a !in p.home
  {
    var p' := AddBlock(p, a);
    forall b | b in p'.home ensures p'.Within(b) { assert b != a ==> p.Within(b); }
  }

  lemma AddBlockKeeps(p: Pool, a: Address)
    requires Sound(p) && Spare(p, a)
    ensures var p' := AddBlock(p, a); Sound(p')
  {
    AddBlockBlocks(p, a);
    AddBlockLists(p, a);
  }

  lemma AddBlockLists(p: Pool, a: Address)
    requires Sound(p) && Spare(p, a) && a !in p.home && RegionsOk(AddBlock(p, a)) && BlocksOk(AddBlock(p, a))
    ensures ListsOk(AddBlock(p, a))
  {
    HeadersClear(AddBlock(p, a), a);
    PushLinked(p.words, p.freeListHead, p.free, a);
    WriteElsewhere(p.words, p.listHead, p.chunks, a, p.freeListHead);
  }

  lemma PoppedLinked(words: map<Address, Address>, head: Address, list: seq<Address>)
    requires Linked(words, head, list) && list != []
    ensures list[0] in words && Linked(words, words[list[0]], list[1..])
  {
    forall k | 0 <= k < |list| - 1
      ensures list[1..][k] != 0 && list[1..][k] in words
      ensures words[list[1..][k]] == NextIn(list[1..], k)
    {
      assert list[1..][k] == list[k + 1] && NextIn(list[1..], k) == NextIn(list, k + 1);
    }
  }

  /** `n` more blocks fit exactly between `a` and the end of the newest region. */
  ghost predicate Carving(p: Pool, a: Address, n: nat) {
    && Sound(p) && p.regions != []
    && p.regions[|p.regions| - 1].base + NODE_SIZE <= a
    && a + Span(n, p.objectSize) == p.regions[|p.regions| - 1].end
    && forall b :: b in p.home && HomeOf(p, b) == |p.regions| - 1 ==> b + p.objectSize <= a
  }

  lemma CarveStep(p: Pool, a: Address, n: nat)
    requires Carving(p, a, n) && 0 < n
    ensures Carving(AddBlock(p, a), a + p.objectSize, n - 1)
  {
    SpanIsProduct(n - 1, p.objectSize);
    SpareAtEnd(p, a);
    AddBlockKeeps(p, a);
    var q := AddBlock(p, a);
    forall b | b in q.home && HomeOf(q, b) == |q.regions| - 1 ensures b + q.objectSize <= a + p.objectSize {
      assert b != a ==> HomeOf(p, b) == |p.regions| - 1;
    }
  }

  /** Carving fills the free list with `n` blocks and changes nothing else. */
  lemma {:induction false} CarveAdds(p: Pool, a: Address, n: nat)
    requires p.regions != []
    ensures var p' := Carve(p, a, n);
            && |p'.free| == |p.free| + n && p'.live == p.live && p'.mallocTime == p.mallocTime
            && p'.objectSize == p.objectSize
    decreases n
  {
    if n > 0 { CarveAdds(AddBlock(p, a), a + p.objectSize, n - 1); }
  }

  lemma {:induction false} CarveKeeps(p: Pool, a: Address, n: nat, r: Pool)
    requires Carving(p, a, n) && r == Carve(p, a, n)
    ensures Sound(r)
    decreases n
  {
    if n > 0 {
      CarveStep(p, a, n);
      CarveKeeps(AddBlock(p, a), a + p.objectSize, n - 1, r);
    }
  }

  function HomeOf(p: Pool, b: Address): nat
    requires b in p.home
  {
    p.home[b]
  }

  lemma SpareAtEnd(p: Pool, a: Address)
    requires RegionsOk(p) && BlocksOk(p) && p.regions != []
    requires p.regions[|p.regions| - 1].base + NODE_SIZE <= a && a + p.objectSize <= p.regions[|p.regions| - 1].end
    requires forall b :: b in p.home && HomeOf(p, b) == |p.regions| - 1 ==> b + p.objectSize <= a
    ensures Spare(p, a)
  {
    var h := |p.regions| - 1;
    forall b | b in p.home ensures Clear(a, b, p.objectSize) && Clear(b, a, p.objectSize) {
      assert p.Within(b);
      var j := p.home[b];
      if j != h { assert Apart(p.regions[j].base, p.regions[j].end, p.regions[h].base, p.regions[h].end); }
      else { assert HomeOf(p, b) == h; }
    }
  }

  /** The header of the new chunk is linked, and its blocks fit exactly behind it. */
  lemma RefillStarts(p: Pool, base: Address)
    requires Inv(p) && p.free == [] && FreshRegion(p, base, ChunkEnd(p, base))
    ensures Carving(AddChunk(p, base, ChunkEnd(p, base)), base + NODE_SIZE, ChunkBlocks(p))
  {
    SpanIsProduct(ChunkBlocks(p), p.objectSize);
    var end := ChunkEnd(p, base);
    AddChunkKeeps(p, base, end);
    var q := AddChunk(p, base, end);
    forall b | b in q.home ensures HomeOf(q, b) != |q.regions| - 1 { assert p.Within(b); }
  }

  lemma RefillKeeps(p: Pool, base: Address)
    requires Inv(p) && p.free == [] && FreshRegion(p, base, ChunkEnd(p, base))
    ensures var p' := Refilled(p, base);
            Inv(p') && |p'.free| == ChunkBlocks(p) && p'.live == p.live && p'.mallocTime == p.mallocTime + 1
  {
    RefillStarts(p, base);
    var q := AddChunk(p, base, ChunkEnd(p, base));
    CarveAll(q, base + NODE_SIZE, ChunkBlocks(p));
  }

  lemma CarveAll(q: Pool, a: Address, n: nat)
    requires Carving(q, a, n)
    ensures var p' := Carve(q, a, n);
            && Sound(p') && |p'.free| == |q.free| + n && p'.live == q.live && p'.mallocTime == q.mallocTime
  {
    CarveKeeps(q, a, n, Carve(q, a, n));
    CarveAdds(q, a, n);
  }

  lemma TailOf(list: seq<Address>)
    requires list != [] && Distinct(list)
    ensures Distinct(list[1..]) && list[0] !in list[1..]
    ensures forall x :: x in list <==> x == list[0] || x in list[1..]
  {
    assert list == [list[0]] + list[1..];
  }

  lemma PopKeeps(p: Pool)
    requires Inv(p) && p.free != []
    ensures p.free[0] in p.words && Inv(Popped(p))
  {
    PoppedLinked(p.words, p.freeListHead, p.free);
    TailOf(p.free);
    var a, p' := p.free[0], Popped(p);
    forall b | b in p'.home ensures p'.Within(b) { assert p.Within(b); }
    assert a !in p.live;
    assert |p'.live| == |p.live| + 1;
  }

  lemma PushLists(p: Pool, a: Address)
    requires Inv(p) && a in p.live
    ensures ListsOk(Pushed(p, a))
  {
    HeadersClear(p, a);
    PushLinked(p.words, p.freeListHead, p.free, a);
    WriteElsewhere(p.words, p.listHead, p.chunks, a, p.freeListHead);
  }

  lemma PushBlocks(p: Pool, a: Address)
    requires RegionsOk(p) && BlocksOk(p) && a in p.live
    ensures RegionsOk(Pushed(p, a)) && BlocksOk(Pushed(p, a))
  {
    var p' := Pushed(p, a);
    forall b | b in p'.home ensures p'.Within(b) { assert p.Within(b); }
  }

  lemma PushKeeps(p: Pool, a: Address)
    requires Inv(p) && a in p.live
    ensures Inv(Pushed(p, a))
  {
    PushLists(p, a);
    PushBlocks(p, a);
    assert |Pushed(p, a).live| == |p.live| - 1;
  }

  /** The owner of a live block writes a word inside it. */
  function Written(p: Pool, x: Address, v: int): Pool { p.(words := p.words[x := v]) }

  predicate InBlock(p: Pool, a: Address, x: Address) { a <= x && x + NODE_SIZE <= a + p.objectSize }

  /** No chunk header overlaps a block. */
  lemma HeaderApart(p: Pool, a: Address, c: Address)
    requires Inv(p) && a in p.home && c in p.chunks
    ensures c + NODE_SIZE <= a || a + p.objectSize <= c
  {
    assert p.Within(a);
    var h := p.home[a];
    var k :| 0 <= k < |p.chunks| && p.chunks[k] == c;
    var j := |p.chunks| - 1 - k;
    assert p.regions[j].base == c;
    if j < h { assert Apart(p.regions[j].base, p.regions[j].end, p.regions[h].base, p.regions[h].end); }
    else if h < j { assert Apart(p.regions[h].base, p.regions[h].end, p.regions[j].base, p.regions[j].end); }
  }

  /** The word at `x` shares no byte with the link word at `b`. */
  predicate WordsApart(x: Address, b: Address) { x + NODE_SIZE <= b || b + NODE_SIZE <= x }

  /** A word inside a live block overlaps no free node and no chunk header. */
  lemma WriteMissesLists(p: Pool, a: Address, x: Address)
    requires Inv(p) && a in p.live && InBlock(p, a, x)
    ensures forall b :: b in p.free ==> WordsApart(x, b)
    ensures forall c :: c in p.chunks ==> WordsApart(x, c)
  {
    forall b | b in p.free ensures WordsApart(x, b) { assert Clear(a, b, p.objectSize); }
    forall c | c in p.chunks ensures WordsApart(x, c) { HeaderApart(p, a, c); }
  }

  /** What users store in their blocks cannot damage either list. */
  lemma WriteKeeps(p: Pool, a: Address, x: Address, v: int)
    requires Inv(p) && a in p.live && InBlock(p, a, x)
    ensures Inv(Written(p, x, v))
    ensures forall b :: b in p.free || b in p.chunks ==> WordsApart(x, b)
  {
    WriteMissesLists(p, a, x);
    assert x !in p.free by { assert !WordsApart(x, x); }
    assert x !in p.chunks by { assert !WordsApart(x, x); }
    WriteElsewhere(p.words, p.freeListHead, p.free, x, v);
    WriteElsewhere(p.words, p.listHead, p.chunks, x, v);
    var p' := Written(p, x, v);
    forall b | b in p'.home ensures p'.Within(b) { assert p.Within(b); }
  }

  // ---------------------------------------------------------------------------
  // Results over every legal run
  // ---------------------------------------------------------------------------

  datatype Event =
    | DoAllocate(base: Address)                            // where malloc puts the next chunk, if one is needed
    | DoDeallocate(a: Address)
    | DoWrite(a: Address, x: Address, v: int)

  ghost predicate Legal(p: Pool, e: Event) {
    match e
    case DoAllocate(base) => p.free == [] ==> FreshRegion(p, base, ChunkEnd(p, base))
    case DoDeallocate(a) => a == 0 || a in p.live
    case DoWrite(a, x, _) => a in p.live && InBlock(p, a, x)
  }

  /** The pool in which the next block is waiting at the head of the free list. */
  function Ready(p: Pool, base: Address): Pool { if p.free == [] then Refilled(p, base) else p }

  lemma ReadyKeeps(p: Pool, base: Address)
    requires Inv(p) && Legal(p, DoAllocate(base))
    ensures Inv(Ready(p, base)) && Ready(p, base).free != [] && Ready(p, base).live == p.live
    ensures Ready(p, base).free[0] in Ready(p, base).words
  {
    if p.free == [] { RefillKeeps(p, base); }
    PopKeeps(Ready(p, base));
  }

  function Step(p: Pool, e: Event): Pool
    requires Inv(p) && Legal(p, e)
  {
    match e
    case DoAllocate(base) => ReadyKeeps(p, base); Popped(Ready(p, base))
    case DoDeallocate(a) => if a == 0 then p else Pushed(p, a)
    case DoWrite(a, x, v) => Written(p, x, v)
  }

  lemma StepKeeps(p: Pool, e: Event)
    requires Inv(p) && Legal(p, e)
    ensures Inv(Step(p, e))
  {
    match e
    case DoAllocate(base) => ReadyKeeps(p, base); PopKeeps(Ready(p, base));
    case DoDeallocate(a) => if a != 0 { PushKeeps(p, a); }
    case DoWrite(a, x, v) => WriteKeeps(p, a, x, v);
  }

  /** The pools a legal run can lead to. */
  ghost predicate Reaches(p: Pool, es: seq<Event>, p': Pool)
    requires Inv(p)
    decreases |es|
  {
    if es == [] then p' == p
    else Legal(p, es[0]) && (StepKeeps(p, es[0]); Reaches(Step(p, es[0]), es[1..], p'))
  }

  lemma StepSize(p: Pool, e: Event)
    requires Inv(p) && Legal(p, e)
    ensures Step(p, e).objectSize == p.objectSize
  {
    match e
    case DoAllocate(base) => ReadySize(p, base);
    case _ =>
  }

  lemma ReadySize(p: Pool, base: Address)
    ensures Ready(p, base).objectSize == p.objectSize
  {
    CarveAdds(AddChunk(p, base, ChunkEnd(p, base)), base + NODE_SIZE, ChunkBlocks(p));
  }

  lemma {:induction false} RunKeeps(p: Pool, es: seq<Event>, p': Pool)
    requires Inv(p) && Reaches(p, es, p')
    ensures Inv(p') && p'.objectSize == p.objectSize
    decreases |es|
  {
    if es != [] {
      StepKeeps(p, es[0]);
      StepSize(p, es[0]);
      RunKeeps(Step(p, es[0]), es[1..], p');
    }
  }

  predicate IsBlock(p: Pool, a: Address) { a in p.live || a in p.free }

  /** The `size` bytes at `a` and the `size` bytes at `b` have none in common. */
  predicate BytesApart(a: Address, b: Address, size: int) { a + size <= b || b + size <= a }

  /** The `size` bytes at `a` do not meet the chunk header at `c`. */
  predicate ClearOfHeader(a: Address, c: Address, size: int) { c + NODE_SIZE <= a || a + size <= c }

  /** The `size` bytes at `a` lie in a region that malloc has supplied. */
  predicate InRegion(p: Pool, a: Address, size: int) {
    exists k :: 0 <= k < |p.regions| && p.regions[k].base <= a && a + size <= p.regions[k].end
  }

  /**
   Every block, live or free, holds `size` bytes of a region that malloc supplied,
   shared with no other block and with no chunk header.
   */
  ghost predicate BlocksApart(p: Pool, size: int) {
    && (forall a, b :: IsBlock(p, a) && IsBlock(p, b) && a != b ==> BytesApart(a, b, size))
    && (forall a, c :: IsBlock(p, a) && c in p.chunks ==> ClearOfHeader(a, c, size))
    && (forall a :: IsBlock(p, a) ==> InRegion(p, a, size))
  }

  /**
   Over every legal run: the free list is the finite chain of nodes from its head,
   without repetition and without live blocks; every block has room for an object of
   the size the pool was made for, apart from all other blocks and from the chunk
   headers; and every block obtained is live or free.
   */
  lemma PoolIsSound(size: nat, es: seq<Event>, p: Pool)
    requires Reaches(EmptyPool(size), es, p)
    ensures Linked(p.words, p.freeListHead, p.free) && Distinct(p.free) && (forall a :: a in p.live ==> a !in p.free)
    ensures size <= p.objectSize && BlocksApart(p, p.objectSize) && BlocksApart(p, size)
    ensures 2 * (|p.live| + |p.free|) == 80 * p.mallocTime + p.mallocTime * (p.mallocTime - 1)
  {
    RunKeeps(EmptyPool(size), es, p);
    CapacityClosedForm(p.mallocTime);
    InvSeparates(p, p.objectSize);
    InvSeparates(p, size);
  }

  lemma InvSeparates(p: Pool, size: int)
    requires Inv(p) && size <= p.objectSize
    ensures BlocksApart(p, size)
  {
    forall a, b | IsBlock(p, a) && IsBlock(p, b) && a != b ensures BytesApart(a, b, size) {
      assert Clear(a, b, p.objectSize);
    }
    forall a, c | IsBlock(p, a) && c in p.chunks ensures ClearOfHeader(a, c, size) { HeaderApart(p, a, c); }
    forall a | IsBlock(p, a) ensures InRegion(p, a, size) { assert p.Within(a); }
  }

  /**
   Allocate hands out a block that is not live, with room for an object of any size
   up to the pool's, apart from every live block and every chunk header.
   */
  lemma AllocatedBlockIsNew(p: Pool, base: Address, size: int)
    requires Inv(p) && Legal(p, DoAllocate(base)) && size <= p.objectSize
    ensures var q := Ready(p, base);
            && q.free != []
            && var a := q.free[0];
            && a !in p.live && a != 0
            && Step(p, DoAllocate(base)).live == p.live + {a}
            && (forall b :: b in p.live ==> BytesApart(a, b, size))
            && (forall c :: c in q.chunks ==> ClearOfHeader(a, c, size))
            && InRegion(q, a, size)
  {
    ReadyKeeps(p, base);
    ReadySize(p, base);
    var q := Ready(p, base);
    var a := q.free[0];
    assert a in q.free && q.Within(a);
    HeadersClear(q, a);
    InvSeparates(q, size);
    forall b | b in p.live ensures BytesApart(a, b, size) { assert IsBlock(q, a) && IsBlock(q, b); }
    assert IsBlock(q, a);
  }

  /** The block given back last is the next one handed out, and the two calls cancel out. */
  lemma AllocateAfterDeallocate(p: Pool, a: Address, base: Address)
    requires Inv(p) && a in p.live
    ensures var q := Step(p, DoDeallocate(a));
            && Inv(q) && Legal(q, DoAllocate(base))
            && Step(q, DoAllocate(base)) == p.(words := p.words[a := p.freeListHead])
  {
    StepKeeps(p, DoDeallocate(a));
    HeadersClear(p, a);
    assert ([a] + p.free)[1..] == p.free;
    assert p.live - {a} + {a} == p.live;
  }

  lemma HeadOf(p: Pool)
    requires Inv(p)
    ensures p.freeListHead == 0 <==> p.free == []
    ensures p.free != [] ==> p.freeListHead == p.free[0]
  {
  }

  // ---------------------------------------------------------------------------
  // The class
  // ---------------------------------------------------------------------------

  class MemoryPool {
    const objectSize: int
    ghost const size: nat          // the size the pool was made for
    var freeListHead: Address
    var listHead: Address
    var mallocTime: nat
    var words: map<Address, Address>
    ghost var free: seq<Address>
    ghost var chunks: seq<Address>
    ghost var regions: seq<Region>
    ghost var live: set<Address>
    ghost var home: map<Address, nat>

    ghost function View(): Pool
      reads this
    {
      Pool(objectSize, freeListHead, listHead, mallocTime, words, free, chunks, regions, live, home)
    }

    ghost predicate Valid()
      reads this
    {
      Inv(View()) && size <= objectSize
    }

    constructor (size: nat)
      ensures Valid() && this.size == size && View() == EmptyPool(size)
    {
      this.size := size;
      objectSize := if size < NODE_SIZE then NODE_SIZE else size;
      freeListHead, listHead, mallocTime := 0, 0, 0;
      words := map[];
      free, chunks, regions, live, home := [], [], [], {}, map[];
    }

    /** Cut `n` blocks off the newest chunk, each in front of the free list. */
    method CarveBlocks(start: Address, n: nat)
      requires regions != []
      modifies this
      ensures View() == Carve(old(View()), start, n)
    {
      ghost var target := Carve(View(), start, n);
      var at, i := start, 0;
      while i < n
        invariant 0 <= i <= n && regions != []
        invariant Carve(View(), at, n - i) == target
      {
        words := words[at := freeListHead];
        freeListHead := at;
        free := [at] + free;
        home := home[at := |regions| - 1];
        at := at + objectSize;
        i := i + 1;
      }
    }

    /** The refill branch of Allocate. */
    method Refill(base: Address)
      modifies this
      ensures View() == Refilled(old(View()), base)
    {
      var mallocSize := INITIAL_MALLOC_SIZE + mallocTime;
      ghost var end := ChunkEnd(View(), base);
      words := words[base := listHead];
      listHead := base;
      chunks := [base] + chunks;
      regions := regions + [Region(base, end)];
      mallocTime := mallocTime + 1;
      CarveBlocks(base + NODE_SIZE, mallocSize);
    }

    /** Take the first block off the free list. */
    method Pop() returns (a: Address)
      requires free != [] && freeListHead == free[0] && free[0] in words
      modifies this
      ensures View() == Popped(old(View())) && a == old(free)[0]
    {
      a := freeListHead;
      freeListHead := words[a];
      free := free[1..];
      live := live + {a};
    }

    /** Hand out the first free block, after a refill if there is none. */
    method Allocate(base: Address) returns (a: Address)
      requires Valid() && Legal(View(), DoAllocate(base))
      modifies this
      ensures Valid() && View() == Step(old(View()), DoAllocate(base))
      ensures a != 0 && a !in old(live) && live == old(live) + {a}
      ensures InRegion(View(), a, size)
      ensures forall b :: b in old(live) ==> BytesApart(a, b, size)
      ensures forall c :: c in chunks ==> ClearOfHeader(a, c, size)
    {
      AllocatedBlockIsNew(View(), base, size);
      StepKeeps(View(), DoAllocate(base));
      ReadyKeeps(View(), base);
      HeadOf(View());
      HeadOf(Ready(View(), base));
      if freeListHead == 0 {
        Refill(base);
      }
      a := Pop();
    }

    method Deallocate(a: Address)
      requires Valid() && Legal(View(), DoDeallocate(a))
      modifies this
      ensures Valid() && View() == Step(old(View()), DoDeallocate(a))
    {
      StepKeeps(View(), DoDeallocate(a));
      if a == 0 { return; }
      words := words[a := freeListHead];
      freeListHead := a;
      free := [a] + free;
      live := live - {a};
    }

    /** The destructor: every chunk is given back to the system once, newest first. */
    method Destroy() returns (freed: seq<Address>)
      requires Valid()
      modifies this`listHead
      ensures freed == old(chunks) && Distinct(freed) && |freed| == mallocTime
    {
      ChunksDistinct(View());
      freed := FreeChunks();
    }

    method FreeChunks() returns (freed: seq<Address>)
      requires Linked(words, listHead, chunks)
      modifies this`listHead
      ensures freed == chunks
    {
      freed := [];
      ghost var k := 0;
      while listHead != 0
        invariant k <= |chunks| && freed == chunks[..k]
        invariant listHead == if k < |chunks| then chunks[k] else 0
        decreases |chunks| - k
      {
        assert words[chunks[k]] == NextIn(chunks, k);
        freed := freed + [listHead];
        listHead := words[listHead];
        k := k + 1;
      }
    }
  }

  lemma ChunksDistinct(p: Pool)
    requires Inv(p)
    ensures Distinct(p.chunks) && |p.chunks| == p.mallocTime && Linked(p.words, p.listHead, p.chunks)
  {
    forall j, k | 0 <= j < k < |p.chunks| ensures p.chunks[j] != p.chunks[k] {
      var x, y := |p.chunks| - 1 - j, |p.chunks| - 1 - k;
      assert p.regions[x].base == p.chunks[j] && p.regions[y].base == p.chunks[k];
      assert Apart(p.regions[y].base, p.regions[y].end, p.regions[x].base, p.regions[x].end);
    }
  }
}
