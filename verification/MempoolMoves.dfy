/** The elementary moves of a memory pool, each keeping the invariant. */
module MempoolMoves {
  import opened Prelude
  import opened MempoolState

  // Chains

  lemma InChains(p: Pool, c: ChunkId)
    requires Partitioned(p)
    ensures c in p.mem <==> c in p.small || c in p.big || c in p.unused
    ensures c in p.small ==> c !in p.big && c !in p.unused
    ensures c in p.big ==> c !in p.unused
  {
    var m := multiset(p.small) + multiset(p.big) + multiset(p.unused);
    assert m[c] == multiset(p.mem.Keys)[c];
    assert c in p.small <==> c in multiset(p.small);
    assert c in p.big <==> c in multiset(p.big);
    assert c in p.unused <==> c in multiset(p.unused);
  }

  lemma {:induction false} ChainSizeSame(mem: map<ChunkId, seq<Byte>>, mem': map<ChunkId, seq<Byte>>, chain: seq<ChunkId>)
    requires forall c | c in chain :: SizeOf(mem', c) == SizeOf(mem, c)
    ensures ChainSize(mem', chain) == ChainSize(mem, chain)
  {
    if chain != [] {
      ChainSizeSame(mem, mem', chain[1..]);
    }
  }

  lemma SuffixIn(a: seq<ChunkId>, b: seq<ChunkId>, c: ChunkId)
    requires Suffix(a, b) && c in a
    ensures c in b
  {
    var i :| 0 <= i < |a| && a[i] == c;
    assert b[|b| - |a|..][i] == c;
  }

  lemma SuffixCons(a: seq<ChunkId>, b: seq<ChunkId>, c: ChunkId)
    requires Suffix(a, b)
    ensures Suffix(a, [c] + b)
  {
    assert ([c] + b)[|b| + 1 - |a|..] == b[|b| - |a|..];
  }

  /** A shorter suffix is a suffix of the tail. */
  lemma SuffixTail(a: seq<ChunkId>, b: seq<ChunkId>)
    requires Suffix(a, b) && b != [] && b[0] !in a
    ensures Suffix(a, b[1..])
  {
    assert |a| == |b| ==> a == b;
    assert b[1..][|b| - 1 - |a|..] == b[|b| - |a|..];
  }

  /** Placement only depends on the sizes of the chunks named. */
  lemma HoldsSame(mem: map<ChunkId, seq<Byte>>, mem': map<ChunkId, seq<Byte>>, s: Save, blocks: seq<Block>)
    requires Holds(mem, s, blocks)
    requires forall c | c in s.small || c in s.big :: SizeOf(mem', c) == SizeOf(mem, c)
    requires SizeOf(mem', 0) == SizeOf(mem, 0) == 0
    ensures Holds(mem', s, blocks)
  {
    forall i | 0 <= i < |blocks| ensures Placed(mem', s, blocks[i]) {
      assert Placed(mem, s, blocks[i]);
    }
  }

  lemma SavedChunks(p: Pool, l: Ledger, k: int, c: ChunkId)
    requires |l.marks| == |p.saves| && 0 <= k < |p.saves| && SaveOk(p, l, k)
    requires c in p.saves[k].small || c in p.saves[k].big
    ensures c in p.saves[k].small ==> c in p.small
    ensures c in p.saves[k].big ==> c in p.big
  {
    if c in p.saves[k].small {
      SuffixIn(p.saves[k].small, p.small, c);
    }
    if c in p.saves[k].big {
      SuffixIn(p.saves[k].big, p.big, c);
    }
  }

  /** A saved state stays good while its chunks keep their sizes and the chains only differ in front of it. */
  lemma SaveKept(p: Pool, l: Ledger, p': Pool, k: int)
    requires |l.marks| == |p.saves| && 0 <= k < |p.saves| && SaveOk(p, l, k) && p'.saves == p.saves
    requires Extends(p.saves[k], Current(p'))
    requires forall c | c in p.saves[k].small || c in p.saves[k].big :: SizeOf(p'.mem, c) == SizeOf(p.mem, c)
    requires SizeOf(p'.mem, 0) == SizeOf(p.mem, 0) == 0
    ensures SaveOk(p', l, k)
  {
    HoldsSame(p.mem, p'.mem, p.saves[k], l.blocks[..l.marks[k]]);
  }

  // Carving a block off the free end of the first small chunk

  function Carve(p: Pool, avail: nat, size: nat): Pool
    requires size <= avail
  {
    p.(free0 := avail - size)
  }

  function CarveBlock(p: Pool, avail: nat, size: nat, aligned: bool): Block
    requires avail <= SizeOf(p.mem, Head(p.small))
  {
    Block(Head(p.small), SizeOf(p.mem, Head(p.small)) - avail, size, aligned)
  }

  function Closed(l: Ledger, b: Block): Ledger {
    l.(blocks := l.blocks + [b], open := false)
  }

  lemma CarveBlocks(p: Pool, l: Ledger, avail: nat, size: nat, aligned: bool)
    requires ChunksOk(p) && BlocksOk(p, l) && size <= avail <= p.free0
    requires aligned ==> avail % ALIGN == 0
    ensures BlocksOk(Carve(p, avail, size), Closed(l, CarveBlock(p, avail, size, aligned)))
  {
    var b := CarveBlock(p, avail, size, aligned);
    var p' := Carve(p, avail, size);
    var bs := l.blocks + [b];
    if p.small != [] {
      InChains(p, p.small[0]);
    }
    assert Placed(p.mem, Current(p'), b) by {
      if p.small == [] {
        assert 0 !in p.mem;
      }
    }
    forall i | 0 <= i < |l.blocks|
      ensures Placed(p.mem, Current(p'), l.blocks[i]) && Apart(l.blocks[i], b)
    {
      assert Placed(p.mem, Current(p), l.blocks[i]);
      if l.blocks[i].chunk in p.big {
        InChains(p, l.blocks[i].chunk);
      }
    }
    assert b.chunk !in p.big by {
      InChains(p, b.chunk);
    }
    assert AlignedOk(bs);
  }

  lemma CarveSaves(p: Pool, l: Ledger, p': Pool, b: Block)
    requires Partitioned(p) && SavesOk(p, l) && b.chunk !in p.big
    requires p' == p.(free0 := p'.free0)
    ensures SavesOk(p', Closed(l, b))
  {
    var l' := Closed(l, b);
    forall k | 0 <= k < |p'.saves| ensures SaveOk(p', l', k) {
      assert SaveOk(p, l, k);
      assert l'.blocks[..l'.marks[k]] == l.blocks[..l.marks[k]];
      if b.chunk in p.saves[k].big {
        SavedChunks(p, l, k, b.chunk);
      }
    }
  }

  lemma CarveInv(p: Pool, l: Ledger, avail: nat, size: nat, aligned: bool)
    requires Inv(p, l) && size <= avail <= p.free0 && (aligned ==> avail % ALIGN == 0)
    ensures Inv(Carve(p, avail, size), Closed(l, CarveBlock(p, avail, size, aligned)))
  {
    var b := CarveBlock(p, avail, size, aligned);
    CarveBlocks(p, l, avail, size, aligned);
    InChains(p, b.chunk);
    CarveSaves(p, l, Carve(p, avail, size), b);
  }

  // A chunk more at the front of the small chain; the buffer it offers is open

  function Opened(l: Ledger): Ledger {
    l.(open := true)
  }

  function Reuse(p: Pool): Pool
    requires p.unused != []
  {
    p.(unused := p.unused[1..], small := [p.unused[0]] + p.small, free0 := p.chunkSize, idx := 0)
  }

  function NewSmall(p: Pool, data: seq<Byte>): Pool {
    p.(mem := p.mem[p.next := data], next := p.next + 1, small := [p.next] + p.small,
       free0 := |data|, total := p.total + |data| + TAIL, idx := 0)
  }

  function NewBig(p: Pool, data: seq<Byte>): Pool {
    p.(mem := p.mem[p.next := data], next := p.next + 1, big := [p.next] + p.big,
       free1 := |data|, total := p.total + |data| + TAIL, lastBig := Some(Ptr(p.next, 0)), idx := 1)
  }

  lemma ChainSizeCons(mem: map<ChunkId, seq<Byte>>, c: ChunkId, chain: seq<ChunkId>)
    ensures ChainSize(mem, [c] + chain) == SizeOf(mem, c) + TAIL + ChainSize(mem, chain)
  {
    assert ([c] + chain)[1..] == chain;
  }

  lemma ReuseChunks(p: Pool)
    requires ChunksOk(p) && p.unused != []
    ensures ChunksOk(Reuse(p))
  {
    var p' := Reuse(p);
    var c := p.unused[0];
    assert p.unused == [c] + p.unused[1..];
    ChainSizeCons(p.mem, c, p.small);
    assert multiset(p'.small) == multiset{c} + multiset(p.small);
    assert multiset(p.unused) == multiset{c} + multiset(p.unused[1..]);
    InChains(p, c);
    assert forall d | d in p'.small :: d == c || d in p.small;
  }

  lemma KeysAdded(p: Pool, mem': map<ChunkId, seq<Byte>>, data: seq<Byte>)
    requires IdsOk(p) && mem' == p.mem[p.next := data]
    ensures multiset(mem'.Keys) == multiset(p.mem.Keys) + multiset{p.next}
    ensures forall c: ChunkId | c != p.next :: SizeOf(mem', c) == SizeOf(p.mem, c)
    ensures SizeOf(mem', p.next) == |data|
  {
    assert p.next !in p.mem;
    assert mem'.Keys == p.mem.Keys + {p.next};
  }

  lemma ChainsUntouched(p: Pool, mem': map<ChunkId, seq<Byte>>)
    requires IdsOk(p) && Partitioned(p)
    requires forall c: ChunkId | c != p.next :: SizeOf(mem', c) == SizeOf(p.mem, c)
    ensures p.next !in p.small && p.next !in p.big && p.next !in p.unused
    ensures ChainSize(mem', p.small) == ChainSize(p.mem, p.small)
    ensures ChainSize(mem', p.big) == ChainSize(p.mem, p.big)
    ensures ChainSize(mem', p.unused) == ChainSize(p.mem, p.unused)
  {
    InChains(p, p.next);
    ChainSizeSame(p.mem, mem', p.small);
    ChainSizeSame(p.mem, mem', p.big);
    ChainSizeSame(p.mem, mem', p.unused);
  }

  lemma NewSmallChunks(p: Pool, data: seq<Byte>)
    requires ChunksOk(p) && |data| == p.chunkSize
    ensures ChunksOk(NewSmall(p, data))
  {
    var p' := NewSmall(p, data);
    KeysAdded(p, p'.mem, data);
    ChainsUntouched(p, p'.mem);
    ChainSizeCons(p'.mem, p.next, p.small);
    assert multiset(p'.small) == multiset{p.next} + multiset(p.small);
    assert forall d | d in p'.small :: d == p.next || d in p.small;
  }

  lemma NewBigChunks(p: Pool, data: seq<Byte>)
    requires ChunksOk(p) && |data| % ALIGN == 0
    ensures ChunksOk(NewBig(p, data))
  {
    var p' := NewBig(p, data);
    KeysAdded(p, p'.mem, data);
    ChainsUntouched(p, p'.mem);
    ChainSizeCons(p'.mem, p.next, p.big);
    assert multiset(p'.big) == multiset{p.next} + multiset(p.big);
    assert forall d | d in p'.big :: d == p.next || d in p.big;
  }

  lemma BlockChunk(p: Pool, l: Ledger, i: int)
    requires ChunksOk(p) && Holds(p.mem, Current(p), l.blocks) && 0 <= i < |l.blocks|
    ensures l.blocks[i].chunk == 0 || l.blocks[i].chunk in p.small || l.blocks[i].chunk in p.big
    ensures l.blocks[i].chunk < p.next
    ensures l.blocks[i].chunk == 0 || l.blocks[i].chunk in p.mem
    ensures l.blocks[i].off + l.blocks[i].len <= SizeOf(p.mem, l.blocks[i].chunk)
  {
    assert Placed(p.mem, Current(p), l.blocks[i]);
    InChains(p, l.blocks[i].chunk);
  }

  /** Putting a chunk in front of a chain only frees its former head. */
  lemma FrontBlocks(p: Pool, l: Ledger, p': Pool, c: ChunkId)
    requires ChunksOk(p) && BlocksOk(p, l) && c !in p.small && c !in p.big && c != 0
    requires forall d | d in p.small || d in p.big :: SizeOf(p'.mem, d) == SizeOf(p.mem, d)
    requires || (p'.small == [c] + p.small && p'.big == p.big && p'.free0 == SizeOf(p'.mem, c) && p'.free1 == p.free1)
             || (p'.big == [c] + p.big && p'.small == p.small && p'.free1 == SizeOf(p'.mem, c) && p'.free0 == p.free0)
    requires SizeOf(p'.mem, 0) == 0
    ensures BlocksOk(p', l)
  {
    assert SizeOf(p.mem, 0) == 0;
    forall i | 0 <= i < |l.blocks| ensures Placed(p'.mem, Current(p'), l.blocks[i]) && l.blocks[i].chunk != c {
      assert Placed(p.mem, Current(p), l.blocks[i]);
      InChains(p, l.blocks[i].chunk);
    }
    assert forall d | d in p'.big :: d == c || d in p.big;
  }

  lemma FrontSaves(p: Pool, l: Ledger, p': Pool, c: ChunkId)
    requires Partitioned(p) && SavesOk(p, l) && p'.saves == p.saves && IdsOk(p)
    requires forall d | d in p.small || d in p.big :: SizeOf(p'.mem, d) == SizeOf(p.mem, d)
    requires (p'.small == [c] + p.small && p'.big == p.big) || (p'.big == [c] + p.big && p'.small == p.small)
    requires SizeOf(p'.mem, 0) == 0
    ensures SavesOk(p', Opened(l))
  {
    forall k | 0 <= k < |p'.saves| ensures SaveOk(p', Opened(l), k) {
      assert SaveOk(p, l, k);
      SuffixCons(p.saves[k].small, p.small, c);
      SuffixCons(p.saves[k].big, p.big, c);
      forall d | d in p.saves[k].small || d in p.saves[k].big ensures SizeOf(p'.mem, d) == SizeOf(p.mem, d) {
        SavedChunks(p, l, k, d);
      }
      HoldsSame(p.mem, p'.mem, p.saves[k], l.blocks[..l.marks[k]]);
    }
  }

  lemma ReuseInv(p: Pool, l: Ledger)
    requires Inv(p, l) && p.unused != []
    ensures Inv(Reuse(p), Opened(l))
  {
    var c := p.unused[0];
    ReuseChunks(p);
    InChains(p, c);
    FrontBlocks(p, l, Reuse(p), c);
    FrontSaves(p, l, Reuse(p), c);
  }

  lemma NewSmallInv(p: Pool, l: Ledger, data: seq<Byte>)
    requires Inv(p, l) && |data| == p.chunkSize
    ensures Inv(NewSmall(p, data), Opened(l))
  {
    var p' := NewSmall(p, data);
    NewSmallChunks(p, data);
    KeysAdded(p, p'.mem, data);
    InChains(p, p.next);
    FrontBlocks(p, l, p', p.next);
    FrontSaves(p, l, p', p.next);
  }

  lemma NewBigInv(p: Pool, l: Ledger, data: seq<Byte>)
    requires Inv(p, l) && |data| % ALIGN == 0
    ensures Inv(NewBig(p, data), Opened(l))
  {
    var p' := NewBig(p, data);
    NewBigChunks(p, data);
    KeysAdded(p, p'.mem, data);
    InChains(p, p.next);
    FrontBlocks(p, l, p', p.next);
    FrontSaves(p, l, p', p.next);
    NewBigOpen(p, l, data);
  }

  lemma NewBigOpen(p: Pool, l: Ledger, data: seq<Byte>)
    requires ChunksOk(p) && BlocksOk(p, l) && SavesOk(p, l)
    ensures OpenOk(NewBig(p, data), Opened(l))
  {
    forall i | 0 <= i < |l.blocks| ensures l.blocks[i].chunk != p.next {
      BlockChunk(p, l, i);
    }
    forall k | 0 <= k < |p.saves| ensures p.next !in p.saves[k].big {
      if p.next in p.saves[k].big {
        SavedChunks(p, l, k, p.next);
        InChains(p, p.next);
      }
    }
  }

  // Closing a buffer in the big chain

  function CloseBig(p: Pool, size: nat): Pool
    requires size <= p.free1
  {
    p.(free1 := p.free1 - size)
  }

  lemma CloseBigBlocks(p: Pool, l: Ledger, b: Block)
    requires ChunksOk(p) && BlocksOk(p, l) && p.big != [] && p.free1 == SizeOf(p.mem, p.big[0])
    requires forall i | 0 <= i < |l.blocks| :: l.blocks[i].chunk != p.big[0]
    requires b.chunk == p.big[0] && b.off == 0 && b.len <= p.free1
    ensures BlocksOk(CloseBig(p, b.len), Closed(l, b))
  {
    var p' := CloseBig(p, b.len);
    InChains(p, b.chunk);
    forall i | 0 <= i < |l.blocks| ensures Placed(p.mem, Current(p'), l.blocks[i]) {
      assert Placed(p.mem, Current(p), l.blocks[i]);
    }
    assert Placed(p.mem, Current(p'), b);
  }

  lemma CloseBigSaves(p: Pool, l: Ledger, b: Block)
    requires SavesOk(p, l) && b.len <= p.free1
    requires forall k | 0 <= k < |p.saves| :: b.chunk !in p.saves[k].big
    ensures SavesOk(CloseBig(p, b.len), Closed(l, b))
  {
    var l' := Closed(l, b);
    forall k | 0 <= k < |p.saves| ensures SaveOk(CloseBig(p, b.len), l', k) {
      assert SaveOk(p, l, k);
      assert l'.blocks[..l'.marks[k]] == l.blocks[..l.marks[k]];
    }
  }

  lemma CloseBigInv(p: Pool, l: Ledger, size: nat, aligned: bool)
    requires Inv(p, l) && l.open && p.idx == 1 && size <= p.free1
    ensures p.big != [] && Inv(CloseBig(p, size), Closed(l, Block(p.big[0], 0, size, aligned)))
  {
    hide BlocksOk;
    hide SavesOk;
    hide Partitioned;
    hide SizesOk;
    hide TotalOk;
    var b := Block(p.big[0], 0, size, aligned);
    CloseBigBlocks(p, l, b);
    CloseBigSaves(p, l, b);
    MovedChunks(p, CloseBig(p, size));
  }

  /** The chunk facts do not depend on what is free. */
  lemma MovedChunks(p: Pool, p': Pool)
    requires ChunksOk(p) && p' == p.(idx := p'.idx, free0 := p'.free0, free1 := p'.free1,
                                         saves := p'.saves, lastBig := p'.lastBig)
    ensures ChunksOk(p')
  {
  }

  // Opening the last block again

  function ReopenSmall(p: Pool, len: nat): Pool {
    p.(idx := 0, free0 := p.free0 + len)
  }

  function ReopenBig(p: Pool, len: nat): Pool {
    p.(idx := 1, free1 := p.free1 + len)
  }

  function Dropped(l: Ledger): Ledger
    requires l.blocks != []
  {
    l.(blocks := l.blocks[..|l.blocks| - 1], open := true)
  }

  lemma DropSaves(p: Pool, l: Ledger, p': Pool)
    requires SavesOk(p, l) && |l.blocks| > l.fence
    requires p' == p.(idx := p'.idx, free0 := p'.free0, free1 := p'.free1)
    ensures SavesOk(p', Dropped(l))
  {
    var l' := Dropped(l);
    forall k | 0 <= k < |p'.saves| ensures SaveOk(p', l', k) {
      assert SaveOk(p, l, k);
      assert l'.blocks[..l'.marks[k]] == l.blocks[..l.marks[k]];
    }
  }

  lemma ReopenSmallInv(p: Pool, l: Ledger)
    requires Inv(p, l) && |l.blocks| > l.fence && SmallTip(p, l.blocks[|l.blocks| - 1])
    ensures Inv(ReopenSmall(p, l.blocks[|l.blocks| - 1].len), Dropped(l))
  {
    var n := |l.blocks| - 1;
    var b := l.blocks[n];
    var p' := ReopenSmall(p, b.len);
    DropSaves(p, l, p');
    forall i | 0 <= i < n ensures Placed(p'.mem, Current(p'), l.blocks[i]) {
      assert Placed(p.mem, Current(p), l.blocks[i]);
      assert Apart(l.blocks[i], b);
      assert Placed(p.mem, Current(p), b);
    }
    assert BlocksOk(p', Dropped(l));
  }

  lemma ReopenBigBlocks(p: Pool, l: Ledger)
    requires BlocksOk(p, l) && |l.blocks| > 0 && BigTip(p, l.blocks[|l.blocks| - 1])
    ensures BlocksOk(ReopenBig(p, l.blocks[|l.blocks| - 1].len), Dropped(l))
    ensures forall i | 0 <= i < |l.blocks| - 1 :: l.blocks[i].chunk != p.big[0]
  {
    var n := |l.blocks| - 1;
    var b := l.blocks[n];
    var p' := ReopenBig(p, b.len);
    forall i | 0 <= i < n ensures Placed(p'.mem, Current(p'), l.blocks[i]) && l.blocks[i].chunk != b.chunk {
      assert Placed(p.mem, Current(p), l.blocks[i]);
    }
  }

  lemma LateChunk(p: Pool, l: Ledger, n: int)
    requires SavesOk(p, l) && l.fence <= n < |l.blocks|
    ensures forall k | 0 <= k < |p.saves| :: l.blocks[n].chunk !in p.saves[k].big
  {
    forall k | 0 <= k < |p.saves| ensures l.blocks[n].chunk !in p.saves[k].big {
      assert SaveOk(p, l, k);
    }
  }

  lemma ReopenBigInv(p: Pool, l: Ledger)
    requires Inv(p, l) && |l.blocks| > l.fence && BigTip(p, l.blocks[|l.blocks| - 1])
    ensures Inv(ReopenBig(p, l.blocks[|l.blocks| - 1].len), Dropped(l))
  {
    hide BlocksOk;
    hide SavesOk;
    hide Partitioned;
    hide SizesOk;
    hide TotalOk;
    var p' := ReopenBig(p, l.blocks[|l.blocks| - 1].len);
    DropSaves(p, l, p');
    ReopenBigBlocks(p, l);
    LateChunk(p, l, |l.blocks| - 1);
    MovedChunks(p, p');
  }

  // Giving chunks back

  function FreeBig(p: Pool): Pool
    requires p.big != []
  {
    p.(mem := p.mem - {p.big[0]}, big := p.big[1..], total := p.total - (SizeOf(p.mem, p.big[0]) + TAIL))
  }

  function FreeUnused(p: Pool): Pool
    requires p.unused != []
  {
    p.(mem := p.mem - {p.unused[0]}, unused := p.unused[1..], total := p.total - (SizeOf(p.mem, p.unused[0]) + TAIL))
  }

  function Retire(p: Pool): Pool
    requires p.small != []
  {
    p.(small := p.small[1..], unused := [p.small[0]] + p.unused)
  }

  lemma KeysRemoved(mem: map<ChunkId, seq<Byte>>, c: ChunkId)
    requires c in mem
    ensures multiset((mem - {c}).Keys) == multiset(mem.Keys) - multiset{c}
    ensures forall d: ChunkId | d != c :: SizeOf(mem - {c}, d) == SizeOf(mem, d)
  {
    assert (mem - {c}).Keys == mem.Keys - {c};
  }

  lemma Decons(chain: seq<ChunkId>, c: ChunkId)
    requires chain != [] && c == chain[0]
    ensures chain == [c] + chain[1..] && multiset(chain) == multiset{c} + multiset(chain[1..])
  {
    assert chain == [c] + chain[1..];
  }

  /** A chunk occurs once in all the chains together. */
  lemma OnlyOnce(p: Pool, c: ChunkId)
    requires Partitioned(p)
    ensures multiset(p.small)[c] + multiset(p.big)[c] + multiset(p.unused)[c] <= 1
  {
    var m := multiset(p.small) + multiset(p.big) + multiset(p.unused);
    assert m[c] == multiset(p.mem.Keys)[c];
  }

  lemma FreeBigChunks(p: Pool)
    requires ChunksOk(p) && p.big != []
    ensures ChunksOk(FreeBig(p))
    ensures forall d: ChunkId | d != p.big[0] :: SizeOf(FreeBig(p).mem, d) == SizeOf(p.mem, d)
  {
    var c := p.big[0];
    var p' := FreeBig(p);
    InChains(p, c);
    OnlyOnce(p, c);
    Decons(p.big, c);
    KeysRemoved(p.mem, c);
    assert multiset(p.big[1..])[c] == 0;
    assert c !in p.big[1..];
    ChainSizeSame(p.mem, p'.mem, p.small);
    ChainSizeSame(p.mem, p'.mem, p.big[1..]);
    ChainSizeSame(p.mem, p'.mem, p.unused);
  }

  lemma FreeUnusedChunks(p: Pool)
    requires ChunksOk(p) && p.unused != []
    ensures ChunksOk(FreeUnused(p))
    ensures forall d: ChunkId | d != p.unused[0] :: SizeOf(FreeUnused(p).mem, d) == SizeOf(p.mem, d)
  {
    var c := p.unused[0];
    var p' := FreeUnused(p);
    InChains(p, c);
    OnlyOnce(p, c);
    Decons(p.unused, c);
    KeysRemoved(p.mem, c);
    assert multiset(p.unused[1..])[c] == 0;
    assert c !in p.unused[1..];
    ChainSizeSame(p.mem, p'.mem, p.small);
    ChainSizeSame(p.mem, p'.mem, p.big);
    ChainSizeSame(p.mem, p'.mem, p.unused[1..]);
  }

  lemma RetireChunks(p: Pool)
    requires ChunksOk(p) && p.small != []
    ensures ChunksOk(Retire(p))
  {
    var c := p.small[0];
    var p' := Retire(p);
    Decons(p.small, c);
    ChainSizeCons(p.mem, c, p.unused);
    assert multiset(p'.unused) == multiset{c} + multiset(p.unused);
    assert forall d | d in p'.unused :: d == c || d in p.unused;
  }

  // A bigger chunk for the open buffer of the big chain

  function DropBig(p: Pool): Pool
    requires p.big != []
  {
    FreeBig(p).(free1 := 0, lastBig := None, idx := 0)
  }

  /** The system allocator moves the buffer: the old chunk is gone and there is a new one in its place. */
  function GrowBig(p: Pool, data: seq<Byte>): Pool
    requires p.big != []
  {
    NewBig(DropBig(p), data)
  }

  lemma DropBigBlocks(p: Pool, l: Ledger)
    requires ChunksOk(p) && BlocksOk(p, l) && p.big != []
    requires forall i | 0 <= i < |l.blocks| :: l.blocks[i].chunk != p.big[0]
    ensures BlocksOk(DropBig(p), l)
  {
    var p' := DropBig(p);
    var c := p.big[0];
    FreeBigChunks(p);
    InChains(p, c);
    Decons(p.big, c);
    assert SizeOf(p.mem, 0) == 0;
    forall i | 0 <= i < |l.blocks| ensures Placed(p'.mem, Current(p'), l.blocks[i]) {
      assert Placed(p.mem, Current(p), l.blocks[i]);
    }
    assert p.small != [] ==> p.small[0] != c;
    assert forall d | d in p'.big :: d in p.big;
  }

  lemma DropBigSave(p: Pool, l: Ledger, k: int)
    requires ChunksOk(p) && |l.marks| == |p.saves| && 0 <= k < |p.saves| && SaveOk(p, l, k)
    requires p.big != [] && p.big[0] !in p.saves[k].big
    ensures SaveOk(DropBig(p), l, k)
  {
    var p' := DropBig(p);
    InChains(p, p.big[0]);
    KeysRemoved(p.mem, p.big[0]);
    assert SizeOf(p.mem, 0) == 0;
    SuffixTail(p.saves[k].big, p.big);
    forall d | d in p.saves[k].small || d in p.saves[k].big ensures d != p.big[0] {
      SavedChunks(p, l, k, d);
    }
    SaveKept(p, l, p', k);
  }

  lemma DropBigSaves(p: Pool, l: Ledger)
    requires ChunksOk(p) && SavesOk(p, l) && p.big != []
    requires forall k | 0 <= k < |p.saves| :: p.big[0] !in p.saves[k].big
    ensures SavesOk(DropBig(p), l)
  {
    forall k | 0 <= k < |p.saves| ensures SaveOk(DropBig(p), l, k) {
      DropBigSave(p, l, k);
    }
    hide SaveOk;
  }

  lemma DroppedChunks(p: Pool)
    requires ChunksOk(p) && p.big != []
    ensures ChunksOk(DropBig(p))
  {
    FreeBigChunks(p);
  }

  lemma GrowBigInv(p: Pool, l: Ledger, data: seq<Byte>)
    requires Inv(p, l) && l.open && p.idx == 1 && |data| % ALIGN == 0
    ensures p.big != [] && Inv(GrowBig(p, data), l)
  {
    assert Inv(DropBig(p), l) by {
      hide BlocksOk;
      hide SavesOk;
      hide ChunksOk;
      DroppedChunks(p);
      DropBigBlocks(p, l);
      DropBigSaves(p, l);
    }
    assert Opened(l) == l;
    NewBigInv(DropBig(p), l, data);
  }

  // Saving and restoring

  function SaveNow(p: Pool): Pool {
    p.(saves := p.saves + [Current(p)])
  }

  function Marked(l: Ledger): Ledger {
    l.(marks := l.marks + [|l.blocks|], fence := |l.blocks|)
  }

  lemma SaveSaves(p: Pool, l: Ledger)
    requires SavesOk(p, l) && Holds(p.mem, Current(p), l.blocks)
    ensures SavesOk(SaveNow(p), Marked(l))
  {
    hide Holds;
    var p' := SaveNow(p);
    var l' := Marked(l);
    var n := |p.saves|;
    forall k | 0 <= k <= n ensures SaveOk(p', l', k) {
      if k < n {
        assert SaveOk(p, l, k);
      } else {
        assert l.blocks[..|l.blocks|] == l.blocks;
      }
    }
    forall j, k | 0 <= j < k <= n ensures Extends(p'.saves[j], p'.saves[k]) && l'.marks[j] <= l'.marks[k] {
      assert SaveOk(p, l, j);
    }
  }

  lemma SaveInv(p: Pool, l: Ledger)
    requires Inv(p, l) && !l.open
    ensures Inv(SaveNow(p), Marked(l))
  {
    SaveSaves(p, l);
    MovedChunks(p, SaveNow(p));
    hide SavesOk;
    hide ChunksOk;
  }

  /** The state a restore leads to: chunks `q` are the pool's after the later ones are given back. */
  function Rewound(q: Pool, k: nat): Pool
    requires k < |q.saves|
  {
    var s := q.saves[k];
    q.(small := s.small, big := s.big, free0 := s.free0, free1 := s.free1, saves := q.saves[..k], lastBig := None)
  }

  function Truncated(l: Ledger, k: nat): Ledger
    requires k < |l.marks| && l.marks[k] <= |l.blocks|
  {
    Ledger(l.blocks[..l.marks[k]], l.marks[..k], l.marks[k], false)
  }

  /** The chunks a rewinding pool has given back are none of those the saved state knows. */
  ghost predicate Rewinding(p: Pool, q: Pool, k: nat) {
    && k < |p.saves| && q.saves == p.saves && ChunksOk(q) && q.home == p.home
    && Extends(p.saves[k], Current(q))
    && (forall c | c in p.saves[k].small || c in p.saves[k].big :: c in p.mem && c in q.mem && q.mem[c] == p.mem[c])
  }

  lemma OlderChunks(s: Save, t: Save, c: ChunkId)
    requires Extends(s, t) && (c in s.small || c in s.big)
    ensures c in t.small || c in t.big
  {
    if c in s.small {
      SuffixIn(s.small, t.small, c);
    } else {
      SuffixIn(s.big, t.big, c);
    }
  }

  lemma RewindSave(p: Pool, l: Ledger, q: Pool, k: nat, j: nat)
    requires |l.marks| == |p.saves| && j < k < |p.saves| && SaveOk(p, l, j)
    requires l.marks[j] <= l.marks[k] <= |l.blocks| && Extends(p.saves[j], p.saves[k]) && q.saves == p.saves
    requires forall c | c in p.saves[k].small || c in p.saves[k].big :: SizeOf(q.mem, c) == SizeOf(p.mem, c)
    requires SizeOf(p.mem, 0) == SizeOf(q.mem, 0) == 0
    ensures SaveOk(Rewound(q, k), Truncated(l, k), j)
  {
    hide Holds;
    hide Extends;
    var l' := Truncated(l, k);
    assert l'.blocks[..l'.marks[j]] == l.blocks[..l.marks[j]];
    forall c | c in p.saves[j].small || c in p.saves[j].big ensures SizeOf(q.mem, c) == SizeOf(p.mem, c) {
      OlderChunks(p.saves[j], p.saves[k], c);
    }
    HoldsSame(p.mem, q.mem, p.saves[j], l.blocks[..l.marks[j]]);
    SameExtent(p.saves[j], p.saves[k], Current(Rewound(q, k)));
  }

  lemma SameExtent(s: Save, t: Save, u: Save)
    requires Extends(s, t) && u.small == t.small && u.big == t.big
    ensures Extends(s, u)
  {
  }

  lemma RewindSaves(p: Pool, l: Ledger, q: Pool, k: nat)
    requires SavesOk(p, l) && Rewinding(p, q, k)
    requires SizeOf(p.mem, 0) == SizeOf(q.mem, 0) == 0
    ensures SavesOk(Rewound(q, k), Truncated(l, k))
  {
    assert forall j | 0 <= j < k :: Extends(p.saves[j], p.saves[k]) && l.marks[j] <= l.marks[k];
    forall j | 0 <= j < k ensures SaveOk(Rewound(q, k), Truncated(l, k), j) {
      assert SaveOk(p, l, j);
      RewindSave(p, l, q, k, j);
    }
    hide SaveOk;
    hide Extends;
    hide Rewinding;
  }

  lemma RewindBlocks(p: Pool, l: Ledger, q: Pool, k: nat)
    requires BlocksOk(p, l) && SavesOk(p, l) && Rewinding(p, q, k)
    requires q.small == p.saves[k].small && q.big == p.saves[k].big
    requires SizeOf(p.mem, 0) == SizeOf(q.mem, 0) == 0
    ensures BlocksOk(Rewound(q, k), Truncated(l, k))
  {
    assert SaveOk(p, l, k);
    HoldsSame(p.mem, q.mem, p.saves[k], l.blocks[..l.marks[k]]);
    forall c | c in q.big ensures c in p.big {
      SavedChunks(p, l, k, c);
    }
    hide Holds;
    hide ChunksOk;
  }

  lemma RewindHome(p: Pool, l: Ledger, q: Pool, k: nat)
    requires Partitioned(p) && SavesOk(p, l) && HomeOk(p, l) && Rewinding(p, q, k)
    ensures HomeOk(Rewound(q, k), Truncated(l, k))
  {
    hide ChunksOk;
    if p.home != 0 {
      SavedHome(p, l, k);
    }
  }

  lemma SavedHome(p: Pool, l: Ledger, k: nat)
    requires Partitioned(p) && SavesOk(p, l) && HomeOk(p, l) && k < |p.saves| && p.home != 0
    ensures p.saves[k].small != [] && p.saves[k].small[|p.saves[k].small| - 1] == p.home
  {
    assert SaveOk(p, l, k);
    var s := p.saves[k];
    assert Placed(p.mem, s, l.blocks[..l.marks[k]][0]);
    assert p.small[|p.small| - 1] in p.small;
    InChains(p, p.home);
    if p.home in s.big {
      SavedChunks(p, l, k, p.home);
    }
    assert s.small == p.small[|p.small| - |s.small|..];
  }

  lemma RewindInv(p: Pool, l: Ledger, q: Pool, k: nat)
    requires Inv(p, l) && Rewinding(p, q, k) && q.idx < 2
    requires q.small == p.saves[k].small && q.big == p.saves[k].big
    ensures Inv(Rewound(q, k), Truncated(l, k))
  {
    assert SizeOf(p.mem, 0) == SizeOf(q.mem, 0) == 0;
    RewindSaves(p, l, q, k);
    RewindBlocks(p, l, q, k);
    RewindHome(p, l, q, k);
    RewoundChunks(q, k);
    hide ChunksOk;
    hide BlocksOk;
    hide SavesOk;
    hide Rewinding;
  }

  lemma RewoundChunks(q: Pool, k: nat)
    requires ChunksOk(q) && k < |q.saves| && q.small == q.saves[k].small && q.big == q.saves[k].big
    ensures ChunksOk(Rewound(q, k))
  {
  }

  // The unused chunks

  lemma FreeUnusedSaves(p: Pool, l: Ledger)
    requires ChunksOk(p) && SavesOk(p, l) && p.unused != []
    ensures SavesOk(FreeUnused(p), l)
  {
    hide Holds;
    var c := p.unused[0];
    InChains(p, c);
    KeysRemoved(p.mem, c);
    assert SizeOf(p.mem, 0) == 0;
    forall k | 0 <= k < |p.saves| ensures SaveOk(FreeUnused(p), l, k) {
      forall d | d in p.saves[k].small || d in p.saves[k].big ensures d != c {
        SavedChunks(p, l, k, d);
      }
      SaveKept(p, l, FreeUnused(p), k);
    }
  }

  lemma FreeUnusedInv(p: Pool, l: Ledger)
    requires Inv(p, l) && p.unused != []
    ensures Inv(FreeUnused(p), l)
  {
    var c := p.unused[0];
    FreeUnusedChunks(p);
    InChains(p, c);
    assert SizeOf(p.mem, 0) == 0;
    HoldsSame(p.mem, FreeUnused(p).mem, Current(p), l.blocks);
    FreeUnusedSaves(p, l);
    hide SavesOk;
    hide Holds;
  }
}
