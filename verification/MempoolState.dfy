/** A memory pool: a bump allocator over chunks in three chains, with saved states.  Beside the pool itself
    the model keeps a ledger of the blocks handed out. */
module MempoolState {
  import opened Prelude

  type Byte = bv8
  type ChunkId = nat

  const ALIGN: nat := 8
  const TAIL: nat := 16
  const POOL_SIZE: nat := 112
  const STATE_SIZE: nat := 40
  const SIZE_MAX: nat := 0xFFFF_FFFF_FFFF_FFFF
  const MP_SIZE_MAX: nat := SIZE_MAX - TAIL - 4096

  function AlignDown(n: nat): (r: nat)
    ensures r <= n < r + ALIGN && r % ALIGN == 0
  {
    n - n % ALIGN
  }

  function AlignUp(n: nat): (r: nat)
    ensures n <= r < n + ALIGN && r % ALIGN == 0
  {
    AlignDown(n + ALIGN - 1)
  }

  /** An address: a chunk (0 is none) and an offset into it. */
  datatype Ptr = Ptr(chunk: ChunkId, off: nat)

  datatype Save = Save(small: seq<ChunkId>, big: seq<ChunkId>, free0: nat, free1: nat)

  datatype Pool = Pool(
    chunkSize: nat, threshold: nat,
    home: ChunkId,                   // the chunk that holds the pool structure itself, if any
    mem: map<ChunkId, seq<Byte>>,    // the allocated chunks
    next: ChunkId,                   // the next chunk the system allocator will hand out
    small: seq<ChunkId>, big: seq<ChunkId>, unused: seq<ChunkId>,
    free0: nat, free1: nat,
    lastBig: Option<Ptr>, idx: nat,
    total: int,
    saves: seq<Save>)

  /** A block handed out: `len` bytes at `off`; `aligned` if the caller asked for that. */
  datatype Block = Block(chunk: ChunkId, off: nat, len: nat, aligned: bool)

  /** The blocks alive, how many there were at each save, how many there were at the last save or restore,
      and whether a growing buffer is open. */
  datatype Ledger = Ledger(blocks: seq<Block>, marks: seq<nat>, fence: nat, open: bool)

  function SizeOf(mem: map<ChunkId, seq<Byte>>, c: ChunkId): nat {
    if c in mem then |mem[c]| else 0
  }

  function Head(chain: seq<ChunkId>): ChunkId {
    if chain == [] then 0 else chain[0]
  }

  function ChainSize(mem: map<ChunkId, seq<Byte>>, chain: seq<ChunkId>): nat {
    if chain == [] then 0 else SizeOf(mem, chain[0]) + TAIL + ChainSize(mem, chain[1..])
  }

  // Chunks

  /** Every allocated chunk is in exactly one chain, once. */
  ghost predicate Partitioned(p: Pool) {
    multiset(p.small) + multiset(p.big) + multiset(p.unused) == multiset(p.mem.Keys)
  }

  ghost predicate SizesOk(p: Pool) {
    && p.chunkSize % ALIGN == 0 && p.chunkSize >= POOL_SIZE && p.threshold == p.chunkSize / 2
    && (forall c | c in p.small :: SizeOf(p.mem, c) == p.chunkSize)
    && (forall c | c in p.unused :: SizeOf(p.mem, c) == p.chunkSize)
    && (forall c | c in p.big :: SizeOf(p.mem, c) % ALIGN == 0)
  }

  ghost predicate IdsOk(p: Pool) {
    p.next > 0 && (forall c: ChunkId | c in p.mem :: 0 < c < p.next)
  }

  ghost predicate TotalOk(p: Pool) {
    p.total == ChainSize(p.mem, p.small) + ChainSize(p.mem, p.big) + ChainSize(p.mem, p.unused)
  }

  ghost predicate ChunksOk(p: Pool) {
    Partitioned(p) && SizesOk(p) && IdsOk(p) && TotalOk(p)
  }

  // Blocks

  /** Block `b` lies in a chunk of one of the two chains, outside the free end of the chain's head. */
  ghost predicate Placed(mem: map<ChunkId, seq<Byte>>, s: Save, b: Block) {
    || (b.len == 0 && b.chunk == 0 && b.off == 0)
    || (b.chunk in s.small && b.off + b.len + (if b.chunk == s.small[0] then s.free0 else 0) <= SizeOf(mem, b.chunk))
    || (b.chunk in s.big && b.off == 0
        && b.len + (if b.chunk == s.big[0] then s.free1 else 0) <= SizeOf(mem, b.chunk))
  }

  ghost predicate Holds(mem: map<ChunkId, seq<Byte>>, s: Save, blocks: seq<Block>) {
    && s.free0 <= SizeOf(mem, Head(s.small)) && s.free1 <= SizeOf(mem, Head(s.big))
    && (forall i | 0 <= i < |blocks| :: Placed(mem, s, blocks[i]))
  }

  function Current(p: Pool): Save {
    Save(p.small, p.big, p.free0, p.free1)
  }

  /** Blocks of one chunk do not overlap; the one handed out first comes first. */
  ghost predicate Apart(b: Block, d: Block) {
    b.chunk != d.chunk || b.off + b.len <= d.off
  }

  ghost predicate AllApart(blocks: seq<Block>) {
    forall i, j | 0 <= i < j < |blocks| :: Apart(blocks[i], blocks[j])
  }

  /** A big chunk holds one block. */
  ghost predicate BigOnce(big: seq<ChunkId>, blocks: seq<Block>) {
    forall i, j | 0 <= i < j < |blocks| && blocks[j].chunk in big :: blocks[i].chunk != blocks[j].chunk
  }

  ghost predicate AlignedOk(blocks: seq<Block>) {
    forall i | 0 <= i < |blocks| && blocks[i].aligned :: blocks[i].off % ALIGN == 0
  }

  ghost predicate BlocksOk(p: Pool, l: Ledger) {
    Holds(p.mem, Current(p), l.blocks) && AllApart(l.blocks) && BigOnce(p.big, l.blocks) && AlignedOk(l.blocks)
  }

  // Saved states

  ghost predicate Suffix(a: seq<ChunkId>, b: seq<ChunkId>) {
    |a| <= |b| && b[|b| - |a|..] == a
  }

  ghost predicate Extends(s: Save, t: Save) {
    Suffix(s.small, t.small) && Suffix(s.big, t.big)
  }

  /** What the pool keeps about a saved state: its chains are the older ends of the present ones, the blocks
      it knew are outside what it had free, and later blocks are in big chunks it does not know. */
  ghost predicate SaveOk(p: Pool, l: Ledger, k: int)
    requires 0 <= k < |p.saves| == |l.marks|
  {
    && Extends(p.saves[k], Current(p))
    && l.marks[k] <= |l.blocks| && l.marks[k] <= l.fence
    && Holds(p.mem, p.saves[k], l.blocks[..l.marks[k]])
    && (forall i | l.marks[k] <= i < |l.blocks| :: l.blocks[i].chunk !in p.saves[k].big)
  }

  ghost predicate SavesOk(p: Pool, l: Ledger) {
    && |l.marks| == |p.saves| && l.fence <= |l.blocks|
    && (forall k | 0 <= k < |l.marks| :: l.marks[k] <= l.fence)
    && (forall k | 0 <= k < |p.saves| :: SaveOk(p, l, k))
    && (forall j, k | 0 <= j < k < |p.saves| :: Extends(p.saves[j], p.saves[k]) && l.marks[j] <= l.marks[k])
  }

  // The last block and the growing buffer

  ghost predicate SmallTip(p: Pool, b: Block) {
    b.chunk == Head(p.small) && b.off + b.len + p.free0 == SizeOf(p.mem, b.chunk)
  }

  ghost predicate BigTip(p: Pool, b: Block) {
    && p.big != [] && b.chunk == p.big[0] && b.off == 0 && b.len + p.free1 == SizeOf(p.mem, b.chunk)
    && p.lastBig == Some(Ptr(p.big[0], 0))
  }

  /** The last block, unless it is older than the last save or restore, ends where the free space begins. */
  ghost predicate TipOk(p: Pool, l: Ledger) {
    !l.open && |l.blocks| > l.fence ==>
      SmallTip(p, l.blocks[|l.blocks| - 1]) || BigTip(p, l.blocks[|l.blocks| - 1])
  }

  /** An open buffer in the big chain has the whole first chunk for itself. */
  ghost predicate OpenOk(p: Pool, l: Ledger) {
    l.open && p.idx == 1 ==>
      && p.big != [] && p.lastBig == Some(Ptr(p.big[0], 0)) && p.free1 == SizeOf(p.mem, p.big[0])
      && (forall i | 0 <= i < |l.blocks| :: l.blocks[i].chunk != p.big[0])
      && (forall k | 0 <= k < |p.saves| :: p.big[0] !in p.saves[k].big)
  }

  ghost predicate LastBigOk(p: Pool) {
    p.idx < 2 && (p.lastBig.Some? ==> p.big != [] && p.lastBig.value == Ptr(p.big[0], 0))
  }

  /** A pool that lives in its own first chunk: that chunk is the end of the small chain, and the pool
      structure is the first block. */
  ghost predicate HomeOk(p: Pool, l: Ledger) {
    p.home != 0 ==>
      && p.small != [] && p.small[|p.small| - 1] == p.home
      && |l.blocks| > 0 && l.blocks[0] == Block(p.home, 0, POOL_SIZE, true)
      && l.fence >= 1 && (forall k | 0 <= k < |l.marks| :: l.marks[k] >= 1)
  }

  ghost predicate Inv(p: Pool, l: Ledger) {
    && ChunksOk(p) && LastBigOk(p) && BlocksOk(p, l) && SavesOk(p, l)
    && TipOk(p, l) && OpenOk(p, l) && HomeOk(p, l)
  }

  // Contents

  function Data(mem: map<ChunkId, seq<Byte>>, b: Block): (d: seq<Byte>) {
    if b.off + b.len <= SizeOf(mem, b.chunk) && b.chunk in mem then mem[b.chunk][b.off..b.off + b.len] else []
  }

  ghost predicate Kept(mem: map<ChunkId, seq<Byte>>, mem': map<ChunkId, seq<Byte>>, blocks: seq<Block>) {
    forall i | 0 <= i < |blocks| :: Data(mem', blocks[i]) == Data(mem, blocks[i])
  }
}
