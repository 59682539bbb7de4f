/** The memory pool's operations. */
module Mempools {
  import opened Prelude
  import opened MempoolState
  import opened MempoolMoves

  // What the operations promise their callers

  /** Nothing that lived before has changed: the blocks, their bytes and the saved states. */
  ghost predicate Undisturbed(p: Pool, l: Ledger, p': Pool, l': Ledger) {
    && |l.blocks| <= |l'.blocks| && l'.blocks[..|l.blocks|] == l.blocks
    && l'.marks == l.marks && p'.saves == p.saves && l'.fence == l.fence
    && p'.home == p.home && p'.chunkSize == p.chunkSize
    && Kept(p.mem, p'.mem, l.blocks)
  }

  /** One more block was handed out. */
  ghost predicate Handed(p: Pool, l: Ledger, p': Pool, l': Ledger, q: Ptr, size: nat, aligned: bool) {
    Undisturbed(p, l, p', l') && l' == Closed(l, Block(q.chunk, q.off, size, aligned))
  }

  function BufPtr(p: Pool): Ptr
    requires p.free0 <= SizeOf(p.mem, Head(p.small)) && p.free1 <= SizeOf(p.mem, Head(p.big))
  {
    if p.idx == 1 then Ptr(Head(p.big), SizeOf(p.mem, Head(p.big)) - p.free1)
    else Ptr(Head(p.small), SizeOf(p.mem, Head(p.small)) - p.free0)
  }

  function Avail(p: Pool): nat {
    if p.idx == 1 then p.free1 else p.free0
  }

  /** The bytes an open buffer has room for. */
  function Buffer(p: Pool): Block
    requires p.free0 <= SizeOf(p.mem, Head(p.small)) && p.free1 <= SizeOf(p.mem, Head(p.big))
  {
    Block(BufPtr(p).chunk, BufPtr(p).off, Avail(p), false)
  }

  lemma FreeBounds(p: Pool, l: Ledger)
    requires Inv(p, l)
    ensures p.free0 <= SizeOf(p.mem, Head(p.small)) && p.free1 <= SizeOf(p.mem, Head(p.big))
    ensures SizeOf(p.mem, 0) == 0 && l.fence <= |l.blocks|
  {
  }

  // Bytes kept

  lemma AddedKept(p: Pool, l: Ledger, data: seq<Byte>)
    requires Inv(p, l)
    ensures Kept(p.mem, p.mem[p.next := data], l.blocks)
    ensures forall i | 0 <= i < |l.blocks| :: l.blocks[i].chunk != p.next
  {
    forall i | 0 <= i < |l.blocks|
      ensures Data(p.mem[p.next := data], l.blocks[i]) == Data(p.mem, l.blocks[i]) && l.blocks[i].chunk != p.next
    {
      BlockChunk(p, l, i);
    }
  }

  lemma UnusedFree(p: Pool, l: Ledger)
    requires Inv(p, l)
    ensures forall i | 0 <= i < |l.blocks| :: l.blocks[i].chunk !in p.unused
  {
    forall i | 0 <= i < |l.blocks| ensures l.blocks[i].chunk !in p.unused {
      BlockChunk(p, l, i);
      InChains(p, l.blocks[i].chunk);
    }
  }

  lemma RemovedKept(p: Pool, l: Ledger, c: ChunkId)
    requires forall i | 0 <= i < |l.blocks| :: l.blocks[i].chunk != c
    ensures Kept(p.mem, p.mem - {c}, l.blocks)
  {
  }

  /** Bytes may be written anywhere in a chunk without disturbing the bookkeeping. */
  lemma WriteInv(p: Pool, l: Ledger, c: ChunkId, data: seq<Byte>)
    requires Inv(p, l) && c in p.mem && |data| == |p.mem[c]|
    ensures Inv(p.(mem := p.mem[c := data]), l)
  {
    var p' := p.(mem := p.mem[c := data]);
    assert forall d: ChunkId :: SizeOf(p'.mem, d) == SizeOf(p.mem, d);
    WriteChunks(p, p');
    HoldsSame(p.mem, p'.mem, Current(p), l.blocks);
    hide Holds;
    forall k | 0 <= k < |p.saves| ensures SaveOk(p', l, k) {
      assert SaveOk(p, l, k);
      SaveKept(p, l, p', k);
    }
  }

  lemma WriteChunks(p: Pool, p': Pool)
    requires ChunksOk(p) && p' == p.(mem := p'.mem) && p'.mem.Keys == p.mem.Keys
    requires forall d: ChunkId :: SizeOf(p'.mem, d) == SizeOf(p.mem, d)
    ensures ChunksOk(p')
  {
    ChainSizeSame(p.mem, p'.mem, p.small);
    ChainSizeSame(p.mem, p'.mem, p.big);
    ChainSizeSame(p.mem, p'.mem, p.unused);
  }

  // Opening the rest of the first small chunk

  lemma OpenSmallInv(p: Pool, l: Ledger, avail: nat)
    requires Inv(p, l) && avail <= p.free0
    ensures Inv(p.(free0 := avail, idx := 0), Opened(l))
  {
    var p' := p.(free0 := avail, idx := 0);
    MovedChunks(p, p');
    forall i | 0 <= i < |l.blocks| ensures Placed(p'.mem, Current(p'), l.blocks[i]) {
      assert Placed(p.mem, Current(p), l.blocks[i]);
    }
    assert BlocksOk(p', l);
    OpenSmallSaves(p, l, p');
    hide BlocksOk;
    hide SavesOk;
    hide ChunksOk;
  }

  lemma OpenSmallSaves(p: Pool, l: Ledger, p': Pool)
    requires SavesOk(p, l) && p' == p.(free0 := p'.free0, idx := p'.idx)
    ensures SavesOk(p', Opened(l))
  {
    hide Holds;
    forall k | 0 <= k < |p.saves| ensures SaveOk(p', Opened(l), k) {
      assert SaveOk(p, l, k);
    }
  }

  /** What the system allocator hands out: `n` bytes, with any contents. */
  method Malloc(n: nat) returns (data: seq<Byte>)
    ensures |data| == n
  {
    data := seq(n, _ => 0);
  }

  class Mempool {
    var p: Pool
    var l: Ledger

    ghost predicate Valid()
      reads this
    {
      Inv(p, l)
    }

    /** A fresh chunk for a request the first small chunk has no room for. */
    method AllocInternal(size: nat, aligned: bool) returns (r: Option<Ptr>)
      requires Valid()
      modifies this
      ensures Valid()
      ensures r.None? <==> size > old(p).threshold && size > MP_SIZE_MAX
      ensures r.None? ==> p == old(p) && l == old(l)
      ensures r.Some? ==> Handed(old(p), old(l), p, l, r.value, size, aligned)
      ensures r.Some? ==> r.value.off == 0 && FreshChunk(old(p), old(l), r.value.chunk)
      ensures r.Some? ==> p.idx == (if size <= old(p).threshold then 0 else 1)
      ensures r.Some? ==> (if p.idx == 0 then SmallTip(p, l.blocks[|l.blocks| - 1]) else BigTip(p, l.blocks[|l.blocks| - 1]))
    {
      hide Inv;
      if size <= p.threshold {
        AllocSmall(size, aligned);
        r := Some(Ptr(p.small[0], 0));
      } else if size <= MP_SIZE_MAX {
        AllocBig(size, aligned);
        r := Some(Ptr(p.big[0], 0));
      } else {
        r := None;
      }
    }

    method AllocSmall(size: nat, aligned: bool)
      requires Valid() && size <= p.threshold
      modifies this
      ensures Valid() && p.small != [] && p.idx == 0
      ensures Handed(old(p), old(l), p, l, Ptr(p.small[0], 0), size, aligned)
      ensures FreshChunk(old(p), old(l), p.small[0]) && SmallTip(p, l.blocks[|l.blocks| - 1])
    {
      hide Inv;
      if p.unused != [] {
        ReuseInv(p, l);
        ReuseFresh(p, l);
        p := Reuse(p);
      } else {
        var data := Malloc(p.chunkSize);
        NewSmallInv(p, l, data);
        AddedKept(p, l, data);
        NextFresh(p, l);
        p := NewSmall(p, data);
      }
      CarveInv(p, Opened(l), p.chunkSize, size, aligned);
      l := Closed(Opened(l), CarveBlock(p, p.chunkSize, size, aligned));
      p := Carve(p, p.chunkSize, size);
    }

    method AllocBig(size: nat, aligned: bool)
      requires Valid() && p.threshold < size <= MP_SIZE_MAX
      modifies this
      ensures Valid() && p.big != [] && p.idx == 1
      ensures Handed(old(p), old(l), p, l, Ptr(p.big[0], 0), size, aligned)
      ensures FreshChunk(old(p), old(l), p.big[0]) && BigTip(p, l.blocks[|l.blocks| - 1])
    {
      hide Inv;
      var data := Malloc(AlignUp(size));
      NewBigInv(p, l, data);
      AddedKept(p, l, data);
      NextFresh(p, l);
      p := NewBig(p, data);
      CloseBigInv(p, Opened(l), size, aligned);
      l := Closed(Opened(l), Block(p.big[0], 0, size, aligned));
      p := CloseBig(p, size);
    }

    /** A block of `size` bytes at an aligned address. */
    method Alloc(size: nat) returns (r: Option<Ptr>)
      requires Valid() && !l.open
      modifies this
      ensures Valid()
      ensures r.None? ==> size > MP_SIZE_MAX && p == old(p) && l == old(l)
      ensures r.Some? ==> Handed(old(p), old(l), p, l, r.value, size, true)
      ensures r.Some? ==> r.value.off % ALIGN == 0
    {
      hide Inv;
      var avail := AlignDown(p.free0);
      if size <= avail {
        FreeBounds(p, l);
        CarveInv(p, l, avail, size, true);
        var b := CarveBlock(p, avail, size, true);
        r := Some(Ptr(Head(p.small), SizeOf(p.mem, Head(p.small)) - avail));
        p := Carve(p, avail, size);
        l := Closed(l, b);
        LastAligned(p, l);
      } else {
        r := AllocInternal(size, true);
      }
    }

    /** The same at any address. */
    method AllocNoalign(size: nat) returns (r: Option<Ptr>)
      requires Valid() && !l.open
      modifies this
      ensures Valid()
      ensures r.None? ==> size > MP_SIZE_MAX && p == old(p) && l == old(l)
      ensures r.Some? ==> Handed(old(p), old(l), p, l, r.value, size, false)
    {
      hide Inv;
      if size <= p.free0 {
        FreeBounds(p, l);
        CarveInv(p, l, p.free0, size, false);
        var b := CarveBlock(p, p.free0, size, false);
        r := Some(Ptr(Head(p.small), SizeOf(p.mem, Head(p.small)) - p.free0));
        p := Carve(p, p.free0, size);
        l := Closed(l, b);
      } else {
        r := AllocInternal(size, false);
      }
    }

    // Growing buffers

    method StartInternal(size: nat) returns (r: Option<Ptr>)
      requires Valid()
      modifies this
      ensures Valid()
      ensures r.None? ==> size > MP_SIZE_MAX && p == old(p) && l == old(l)
      ensures size <= MP_SIZE_MAX ==> r.Some?
      ensures r.Some? ==> Started(old(p), old(l), p, l, size) && r.value == BufPtr(p)
      ensures r.Some? ==> r.value.off == 0 && FreshChunk(old(p), old(l), r.value.chunk)
    {
      hide Inv;
      FreeBounds(p, l);
      r := AllocInternal(size, true);
      if r.None? {
        return;
      }
      ghost var n := |l.blocks| - 1;
      assert l.blocks[..n] == old(l).blocks;
      if p.idx == 0 {
        ReopenSmallInv(p, l);
        p := p.(free0 := p.free0 + size);
      } else {
        ReopenBigInv(p, l);
        p := p.(free1 := p.free1 + size);
      }
      l := Dropped(l);
      FreeBounds(p, l);
    }

    /** Opens a growing buffer at an aligned address, with room for `size` bytes at least. */
    method Start(size: nat) returns (r: Option<Ptr>)
      requires Valid() && !l.open
      modifies this
      ensures Valid()
      ensures r.None? ==> size > MP_SIZE_MAX && p == old(p) && l == old(l)
      ensures r.Some? ==> Started(old(p), old(l), p, l, size) && r.value == BufPtr(p) && r.value.off % ALIGN == 0
    {
      hide Inv;
      var avail := AlignDown(p.free0);
      if size <= avail {
        OpenSmallInv(p, l, avail);
        HeadAligned(p, l);
        p := p.(free0 := avail, idx := 0);
        l := Opened(l);
        FreeBounds(p, l);
        r := Some(BufPtr(p));
      } else {
        r := StartInternal(size);
      }
    }

    method StartNoalign(size: nat) returns (r: Option<Ptr>)
      requires Valid() && !l.open
      modifies this
      ensures Valid()
      ensures r.None? ==> size > MP_SIZE_MAX && p == old(p) && l == old(l)
      ensures r.Some? ==> Started(old(p), old(l), p, l, size) && r.value == BufPtr(p)
    {
      hide Inv;
      if size <= p.free0 {
        OpenSmallInv(p, l, p.free0);
        p := p.(idx := 0);
        l := Opened(l);
        FreeBounds(p, l);
        r := Some(BufPtr(p));
      } else {
        r := StartInternal(size);
      }
    }

    /** More room for an open buffer, possibly elsewhere; the bytes it had come along. */
    method GrowInternal(size: nat) returns (r: Option<Ptr>)
      requires Valid() && l.open && size > Avail(p)
      modifies this
      ensures Valid()
      ensures r.None? <==> size > MP_SIZE_MAX
      ensures r.None? ==> p == old(p) && l == old(l)
      ensures r.Some? ==> Grown(old(p), old(l), p, l, size) && r.value == BufPtr(p) && r.value.off == 0
    {
      hide Inv;
      FreeBounds(p, l);
      if size > MP_SIZE_MAX {
        return None;
      }
      if p.idx == 1 {
        GrowBigBuffer(size);
      } else {
        MoveSmallBuffer(size);
      }
      r := Some(BufPtr(p));
    }

    method GrowBigBuffer(size: nat)
      requires Valid() && l.open && p.idx == 1 && Avail(p) < size <= MP_SIZE_MAX
      modifies this
      ensures Valid() && Grown(old(p), old(l), p, l, size) && BufPtr(p).off == 0
    {
      hide Inv;
      BigBuffer(p, l);
      FreeBounds(p, l);
      var amortized := Amortized(p.free1, size);
      var more := Malloc(amortized - p.free1);
      var data := p.mem[p.big[0]] + more;
      GrowBigInv(p, l, data);
      GrowBigKept(p, l, data);
      p := GrowBig(p, data);
    }

    method MoveSmallBuffer(size: nat)
      requires Valid() && l.open && p.idx != 1 && Avail(p) < size <= MP_SIZE_MAX
      modifies this
      ensures Valid() && Grown(old(p), old(l), p, l, size) && BufPtr(p).off == 0
    {
      hide Inv;
      FreeBounds(p, l);
      ghost var p0 := p;
      ghost var from := Buffer(p);
      var chunk, avail := Head(p.small), p.free0;
      var bytes := if chunk in p.mem then p.mem[chunk][SizeOf(p.mem, chunk) - avail..] else [];
      var q := StartInternal(size);
      ghost var p1 := p;
      assert Opened(l) == l;
      InBuffer(p, l);
      var c := q.value.chunk;
      var data := bytes + p.mem[c][|bytes|..];
      WriteInv(p, l, c, data);
      PatchKept(p, l, c, data);
      p := p.(mem := p.mem[c := data]);
      FreeBounds(p, l);
      assert Data(p0.mem, from) == bytes;
      assert Data(p.mem, Buffer(p)) == data;
      KeptThen(p0, p1, p, l);
    }

    method Grow(size: nat) returns (r: Option<Ptr>)
      requires Valid() && l.open
      modifies this
      ensures Valid()
      ensures r.None? ==> size > MP_SIZE_MAX && p == old(p) && l == old(l)
      ensures r.Some? ==> Grown(old(p), old(l), p, l, size) && r.value == BufPtr(p)
      ensures r.Some? ==> r.value == old(BufPtr(p)) || r.value.off == 0
    {
      hide Inv;
      FreeBounds(p, l);
      if size <= Avail(p) {
        r := Some(BufPtr(p));
      } else {
        r := GrowInternal(size);
      }
    }

    /** Closes the buffer: its first `len` bytes become a block. */
    method End(len: nat, aligned: bool) returns (q: Ptr)
      requires Valid() && l.open && len <= Avail(p)
      requires aligned ==> BufPtr(p).off % ALIGN == 0
      modifies this
      ensures Valid() && q == old(BufPtr(p)) && p.mem == old(p).mem
      ensures Handed(old(p), old(l), p, l, q, len, aligned)
    {
      hide Inv;
      FreeBounds(p, l);
      q := BufPtr(p);
      if p.idx == 1 {
        BigBuffer(p, l);
        CloseBigInv(p, l, len, aligned);
        p := p.(free1 := p.free1 - len);
      } else {
        HeadAligned(p, l);
        CarveInv(p, l, p.free0, len, aligned);
        p := p.(free0 := p.free0 - len);
      }
      l := Closed(l, Block(q.chunk, q.off, len, aligned));
    }

    /** Opens the last block again and returns its length. */
    method Open(ptr: Ptr) returns (size: nat)
      requires Valid() && Reopenable(l, ptr)
      modifies this
      ensures Valid() && l == Dropped(old(l)) && p.mem == old(p).mem && p.saves == old(p).saves
      ensures p.home == old(p).home && p.chunkSize == old(p).chunkSize
      ensures size == old(l).blocks[|old(l).blocks| - 1].len <= Avail(p)
      ensures BufPtr(p) == ptr
    {
      hide Inv;
      TipPtr(p, l, ptr);
      FreeBounds(p, l);
      if p.lastBig == Some(ptr) {
        size := SizeOf(p.mem, ptr.chunk) - ptr.off - p.free1;
        ReopenBigInv(p, l);
        p := p.(idx := 1, free1 := p.free1 + size);
      } else {
        size := SizeOf(p.mem, ptr.chunk) - ptr.off - p.free0;
        ReopenSmallInv(p, l);
        p := p.(idx := 0, free0 := p.free0 + size);
      }
      l := Dropped(l);
      FreeBounds(p, l);
    }

    /** Resizes the last block, possibly moving it. */
    method Realloc(ptr: Ptr, size: nat) returns (q: Ptr)
      requires Valid() && Reopenable(l, ptr) && size <= MP_SIZE_MAX
      modifies this
      ensures Valid() && Reallocated(old(p), old(l), p, l, q, size)
    {
      hide Inv;
      ghost var p0, l0 := p, l;
      var aligned := l.blocks[|l.blocks| - 1].aligned;
      if aligned {
        LastAligned(p, l);
      }
      TipData(p, l, ptr);
      var was := Open(ptr);
      ghost var p1, l1 := p, l;
      FreeBounds(p, l);
      var r := Grow(size);
      ghost var p2 := p;
      FreeBounds(p, l);
      q := End(size, aligned);
      FinishRealloc(p0, l0, p1, p2, p, l, q, size);
    }

    /** The owner of a block writes into it. */
    method Write(ghost i: nat, q: Ptr, at: nat, bytes: seq<Byte>)
      requires Valid() && i < |l.blocks| && q == Ptr(l.blocks[i].chunk, l.blocks[i].off)
      requires at + |bytes| <= l.blocks[i].len
      modifies this
      ensures Valid() && l == old(l) && p == old(p).(mem := p.mem)
      ensures Data(p.mem, l.blocks[i]) == Patched(Data(old(p).mem, l.blocks[i]), at, bytes)
      ensures forall j | 0 <= j < |l.blocks| && j != i :: Data(p.mem, l.blocks[j]) == Data(old(p).mem, l.blocks[j])
    {
      hide Inv;
      WritePlace(p, l, i);
      if bytes != [] {
        ghost var p0 := p;
        var data := Patched(p.mem[q.chunk], q.off + at, bytes);
        WriteInv(p, l, q.chunk, data);
        WriteOthers(p, l, i, at, bytes);
        p := p.(mem := p.mem[q.chunk := data]);
      }
    }

    /** Writes into the open buffer. */
    method Fill(at: nat, bytes: seq<Byte>)
      requires Valid() && l.open && at + |bytes| <= Avail(p)
      modifies this
      ensures Valid() && Filled(old(p), old(l), p, l, at, bytes)
    {
      hide Inv;
      FreeBounds(p, l);
      BufferSize(p, l);
      FilledNone(p, l, at);
      if bytes != [] {
        InBuffer(p, l);
        var q := BufPtr(p);
        var data := Patched(p.mem[q.chunk], q.off + at, bytes);
        WriteInv(p, l, q.chunk, data);
        FilledOthers(p, l, at, bytes);
        p := p.(mem := p.mem[q.chunk := data]);
      }
    }

    /** Makes sure that there is room for `size` bytes after the first `off` of the open buffer. */
    method Spread(off: nat, size: nat) returns (r: Option<Ptr>)
      requires Valid() && l.open && off <= Avail(p)
      modifies this
      ensures Valid()
      ensures r.None? <==> off + size > MP_SIZE_MAX && off + size > Avail(old(p))
      ensures r.None? ==> p == old(p) && l == old(l)
      ensures r.Some? ==> Grown(old(p), old(l), p, l, off + size) && r.value == Ptr(BufPtr(p).chunk, BufPtr(p).off + off)
      ensures r.Some? ==> BufPtr(p) == old(BufPtr(p)) || BufPtr(p).off == 0
    {
      hide Inv;
      FreeBounds(p, l);
      if Avail(p) - off >= size {
        return Some(Ptr(BufPtr(p).chunk, BufPtr(p).off + off));
      }
      r := GrowInternal(off + size);
      if r.Some? {
        r := Some(Ptr(r.value.chunk, r.value.off + off));
      }
    }

    /** Appends a block to the `off` bytes of the open buffer. */
    method AppendBlock(off: nat, bytes: seq<Byte>) returns (ok: bool)
      requires Valid() && l.open && off <= Avail(p)
      modifies this
      ensures Valid()
      ensures ok <==> off + |bytes| <= MP_SIZE_MAX || off + |bytes| <= Avail(old(p))
      ensures !ok ==> p == old(p) && l == old(l)
      ensures ok ==> Appended(old(p), old(l), p, l, off, bytes)
    {
      hide Inv;
      ghost var p0, l0 := p, l;
      BufferSize(p, l);
      var r := Spread(off, |bytes|);
      if r.None? {
        return false;
      }
      ghost var p1 := p;
      BufferSize(p, l);
      Fill(off, bytes);
      AppendedNow(p0, l0, p1, p, off, bytes);
      ok := true;
    }

    // Saved states

    method Save()
      requires Valid() && !l.open
      modifies this
      ensures Valid() && p == SaveNow(old(p)) && l == Marked(old(l))
    {
      SaveInv(p, l);
      p := SaveNow(p);
      l := Marked(l);
    }

    /** Saves the state in a block of the pool itself. */
    method Push() returns (q: Ptr)
      requires Valid() && !l.open
      modifies this
      ensures Valid() && Handed(SaveNow(old(p)), Marked(old(l)), p, l, q, STATE_SIZE, true)
    {
      Save();
      var r := Alloc(STATE_SIZE);
      q := r.value;
    }

    /** Gives back everything handed out since a save: small chunks are kept for later, big ones are freed. */
    method Restore(k: nat)
      requires Valid() && k < |p.saves|
      modifies this
      ensures Valid() && k < |old(l).marks| && old(l).marks[k] <= |old(l).blocks| && l == Truncated(old(l), k)
      ensures p.saves == old(p).saves[..k] && Current(p) == old(p).saves[k]
      ensures p.home == old(p).home && p.chunkSize == old(p).chunkSize
      ensures Kept(old(p).mem, p.mem, l.blocks)
    {
      hide Inv;
      hide Rewinding;
      hide Kept;
      ghost var p0 := p;
      var s := p.saves[k];
      RewindStart(p, l, k);
      while Head(p.small) != Head(s.small)
        invariant l == old(l) && Rewinding(p0, p, k) && p.idx == p0.idx && p.saves == p0.saves
        invariant p.chunkSize == p0.chunkSize && p.home == p0.home
        decreases |p.small|
      {
        RetireStep(p0, p, k);
        p := Retire(p);
      }
      RetireDone(p0, p, k);
      while Head(p.big) != Head(s.big)
        invariant l == old(l) && Rewinding(p0, p, k) && p.idx == p0.idx && p.saves == p0.saves && p.small == s.small
        invariant p.chunkSize == p0.chunkSize && p.home == p0.home
        decreases |p.big|
      {
        FreeBigStep(p0, p, k);
        p := FreeBig(p);
      }
      FreeBigDone(p0, p, k);
      RewindInv(p0, l, p, k);
      RewindKept(p0, l, p, k);
      l := Truncated(l, k);
      p := Rewound(p, k);
    }

    method Pop()
      requires Valid() && p.saves != []
      modifies this
      ensures Valid() && p.saves == old(p).saves[..|old(p).saves| - 1]
      ensures Current(p) == old(p).saves[|old(p).saves| - 1]
      ensures l.blocks <= old(l).blocks && Kept(old(p).mem, p.mem, l.blocks)
    {
      Restore(|p.saves| - 1);
    }

    /** Frees unused chunks as long as the total stays above a minimum. */
    method Shrink(minTotal: nat)
      requires Valid()
      modifies this
      ensures Valid() && l == old(l) && Undisturbed(old(p), old(l), p, l)
      ensures Current(p) == Current(old(p)) && Suffix(p.unused, old(p).unused)
      ensures p.unused == [] || p.total - (p.chunkSize + TAIL) < minTotal
      ensures p.total >= minTotal || p.unused == old(p).unused
    {
      hide Inv;
      ghost var p0 := p;
      while p.unused != [] && p.total - (SizeOf(p.mem, p.unused[0]) + TAIL) >= minTotal
        invariant Valid() && l == old(l) && Undisturbed(p0, l, p, l) && Current(p) == Current(p0)
        invariant Suffix(p.unused, p0.unused) && (p.total >= minTotal || p.unused == p0.unused)
        decreases |p.unused|
      {
        FreeUnusedInv(p, l);
        UnusedFree(p, l);
        RemovedKept(p, l, p.unused[0]);
        ghost var p1 := p;
        p := FreeUnused(p);
        KeptThen(p0, p1, p, l);
      }
      if p.unused != [] {
        UnusedSize(p, l);
      }
    }

    /** Gives everything back; only the pool structure itself, if it lives in a chunk of its own, stays. */
    method Flush()
      requires Valid()
      modifies this
      ensures Valid() && p.saves == [] && p.big == [] && p.small == (if p.home == 0 then [] else [p.home])
      ensures l == Ledger(HomeBlocks(p.home), [], |HomeBlocks(p.home)|, false)
      ensures p.home == old(p).home && p.chunkSize == old(p).chunkSize
    {
      hide Inv;
      hide ChunksOk;
      ghost var p0 := p;
      FlushStart(p, l);
      while p.big != []
        invariant ChunksOk(p) && p.idx == p0.idx && p.small == p0.small
        invariant p.home == p0.home && p.chunkSize == p0.chunkSize
        decreases |p.big|
      {
        FreeBigChunks(p);
        p := FreeBig(p);
      }
      while p.small != [] && p.small[0] != p.home
        invariant ChunksOk(p) && p.idx == p0.idx && p.big == []
        invariant p.home == p0.home && p.chunkSize == p0.chunkSize
        invariant p.home != 0 ==> p.small != [] && p.small[|p.small| - 1] == p.home
        decreases |p.small|
      {
        RetireChunks(p);
        p := Retire(p);
      }
      FlushEnd(p);
      ghost var q := p;
      p := p.(free0 := if p.small != [] then SizeOf(p.mem, p.small[0]) - POOL_SIZE else 0,
              free1 := 0, saves := [], lastBig := None);
      l := Ledger(HomeBlocks(p.home), [], |HomeBlocks(p.home)|, false);
      MovedChunks(q, p);
      FlushInv(p, l);
    }

    method ChainStats(chain: seq<ChunkId>) returns (size: nat, count: nat, plain: nat)
      ensures size == ChainSize(p.mem, chain) == plain + TAIL * count && count == |chain|
    {
      size, count, plain := 0, 0, 0;
      var rest := chain;
      while rest != []
        invariant size + ChainSize(p.mem, rest) == ChainSize(p.mem, chain)
        invariant count + |rest| == |chain| && size == plain + TAIL * count
        decreases |rest|
      {
        size := size + SizeOf(p.mem, rest[0]) + TAIL;
        plain := plain + SizeOf(p.mem, rest[0]);
        count := count + 1;
        rest := rest[1..];
      }
    }

    /** The statistics: the total agrees with the counter the operations keep, and the use is within it. */
    method Stats() returns (total: int, used: int, counts: seq<nat>)
      requires Valid()
      ensures total == p.total && 0 <= used <= total
      ensures counts == [|p.small|, |p.big|, |p.unused|] && p.mem.Keys == Members(p)
    {
      var size0, count0, plain0 := ChainStats(p.small);
      var size1, count1, plain1 := ChainStats(p.big);
      var size2, count2, _ := ChainStats(p.unused);
      counts := [count0, count1, count2];
      total := size0 + size1 + size2;
      used := plain0 + plain1 - (if p.home != 0 then POOL_SIZE else 0) - (p.free0 + p.free1);
      StatsBounds(p, l);
      ChainKeys(p);
    }

    /** A pool whose structure lives elsewhere. */
    constructor Init(chunkSize: nat)
      ensures Valid() && l == Ledger([], [], 0, false) && p.home == 0 && p.total == 0 && p.saves == []
    {
      var size := AlignUp(if chunkSize > POOL_SIZE then chunkSize else POOL_SIZE);
      p := Pool(size, size / 2, 0, map[], 1, [], [], [], 0, 0, None, 0, 0, []);
      l := Ledger([], [], 0, false);
    }

    /** A pool in its own first chunk. */
    constructor (chunkSize: nat)
      ensures Valid() && p.home != 0 && l == Ledger(HomeBlocks(p.home), [], 1, false)
      ensures p.total == p.chunkSize + TAIL && p.saves == []
    {
      var size := AlignUp(if chunkSize > POOL_SIZE then chunkSize else POOL_SIZE);
      var data := Malloc(size);
      p := Pool(size, size / 2, 1, map[1 := data], 2, [1], [], [], size - POOL_SIZE, 0, None, 0, size + TAIL, []);
      l := Ledger(HomeBlocks(1), [], 1, false);
      new;
      NewPool(p, data);
    }
  }

  function HomeBlocks(home: ChunkId): seq<Block> {
    if home == 0 then [] else [Block(home, 0, POOL_SIZE, true)]
  }

  ghost function Members(p: Pool): set<ChunkId> {
    (set c | c in p.small) + (set c | c in p.big) + (set c | c in p.unused)
  }

  lemma ChainKeys(p: Pool)
    requires Partitioned(p)
    ensures p.mem.Keys == Members(p)
  {
    forall c: ChunkId ensures c in p.mem <==> c in Members(p) {
      InChains(p, c);
    }
  }

  lemma NewPool(p: Pool, data: seq<Byte>)
    requires p.chunkSize % ALIGN == 0 && p.chunkSize >= POOL_SIZE && |data| == p.chunkSize
    requires p == Pool(p.chunkSize, p.chunkSize / 2, 1, map[1 := data], 2, [1], [], [],
                       p.chunkSize - POOL_SIZE, 0, None, 0, p.chunkSize + TAIL, [])
    ensures Inv(p, Ledger(HomeBlocks(1), [], 1, false))
  {
    assert p.mem.Keys == {1};
    assert multiset(p.small) + multiset(p.big) + multiset(p.unused) == multiset{1};
    ChainSizeCons(p.mem, 1, []);
    assert [1] + [] == [1];
  }

  // Flushing

  lemma FlushStart(p: Pool, l: Ledger)
    requires Inv(p, l)
    ensures ChunksOk(p) && p.idx < 2
    ensures p.home != 0 ==> p.small != [] && p.small[|p.small| - 1] == p.home
  {
  }

  lemma FlushEnd(p: Pool)
    requires ChunksOk(p) && (p.small == [] || p.small[0] == p.home)
    requires p.home != 0 ==> p.small != [] && p.small[|p.small| - 1] == p.home
    ensures p.small == (if p.home == 0 then [] else [p.home])
    ensures p.small != [] ==> SizeOf(p.mem, p.small[0]) == p.chunkSize >= POOL_SIZE
  {
    if p.small != [] {
      InChains(p, p.small[0]);
      OnlyOnce(p, p.home);
      Decons(p.small, p.home);
      assert p.home !in multiset(p.small[1..]);
    }
  }

  lemma FlushInv(p: Pool, l: Ledger)
    requires ChunksOk(p) && p.idx < 2 && p.lastBig == None && p.saves == [] && p.big == []
    requires p.small == (if p.home == 0 then [] else [p.home]) && p.free1 == 0
    requires p.free0 == (if p.small != [] then p.chunkSize - POOL_SIZE else 0)
    requires l == Ledger(HomeBlocks(p.home), [], |HomeBlocks(p.home)|, false)
    ensures Inv(p, l)
  {
    assert p.home != 0 ==> p.home in p.small;
  }

  // Statistics

  lemma {:induction false} ChainAtLeast(mem: map<ChunkId, seq<Byte>>, chain: seq<ChunkId>)
    ensures chain != [] ==> ChainSize(mem, chain) >= SizeOf(mem, chain[|chain| - 1]) + TAIL * |chain|
    ensures |chain| > 1 ==>
      ChainSize(mem, chain) >= SizeOf(mem, chain[0]) + SizeOf(mem, chain[|chain| - 1]) + TAIL * |chain|
  {
    if |chain| > 1 {
      ChainAtLeast(mem, chain[1..]);
    }
  }

  lemma {:induction false} ChainFirst(mem: map<ChunkId, seq<Byte>>, chain: seq<ChunkId>)
    ensures ChainSize(mem, chain) >= SizeOf(mem, Head(chain)) + TAIL * |chain| || chain == []
    ensures ChainSize(mem, chain) >= TAIL * |chain|
  {
    if chain != [] {
      ChainFirst(mem, chain[1..]);
    }
  }

  lemma StatsBounds(p: Pool, l: Ledger)
    requires Inv(p, l)
    ensures p.total == ChainSize(p.mem, p.small) + ChainSize(p.mem, p.big) + ChainSize(p.mem, p.unused)
    ensures ChainSize(p.mem, p.small) - TAIL * |p.small| >= p.free0 + (if p.home != 0 then POOL_SIZE else 0)
    ensures ChainSize(p.mem, p.big) - TAIL * |p.big| >= p.free1
    ensures Partitioned(p)
  {
    assert SizeOf(p.mem, 0) == 0;
    ChainFirst(p.mem, p.small);
    ChainFirst(p.mem, p.big);
    ChainAtLeast(p.mem, p.small);
    if p.home != 0 {
      assert Placed(p.mem, Current(p), l.blocks[0]);
      InChains(p, p.home);
      assert p.small[|p.small| - 1] in p.small;
    }
  }

  lemma UnusedSize(p: Pool, l: Ledger)
    requires Inv(p, l) && p.unused != []
    ensures SizeOf(p.mem, p.unused[0]) == p.chunkSize
  {
  }

  function Patched(d: seq<Byte>, at: nat, bytes: seq<Byte>): seq<Byte>
    requires at + |bytes| <= |d|
  {
    d[..at] + bytes + d[at + |bytes|..]
  }

  lemma WritePlace(p: Pool, l: Ledger, i: nat)
    requires Inv(p, l) && i < |l.blocks|
    ensures var b := l.blocks[i];
      && |Data(p.mem, b)| == b.len
      && (b.len > 0 ==> b.chunk in p.mem && b.off + b.len <= |p.mem[b.chunk]|)
  {
    BlockChunk(p, l, i);
  }

  lemma WriteOthers(p: Pool, l: Ledger, i: nat, at: nat, bytes: seq<Byte>)
    requires Inv(p, l) && i < |l.blocks| && at + |bytes| <= l.blocks[i].len && bytes != []
    requires var b := l.blocks[i]; b.chunk in p.mem && b.off + b.len <= |p.mem[b.chunk]|
    ensures var b := l.blocks[i];
      var mem' := p.mem[b.chunk := Patched(p.mem[b.chunk], b.off + at, bytes)];
      && Data(mem', b) == Patched(Data(p.mem, b), at, bytes)
      && (forall j | 0 <= j < |l.blocks| && j != i :: Data(mem', l.blocks[j]) == Data(p.mem, l.blocks[j]))
  {
    var b := l.blocks[i];
    var mem' := p.mem[b.chunk := Patched(p.mem[b.chunk], b.off + at, bytes)];
    forall j | 0 <= j < |l.blocks| && j != i ensures Data(mem', l.blocks[j]) == Data(p.mem, l.blocks[j]) {
      var d := l.blocks[j];
      assert if i < j then Apart(b, d) else Apart(d, b);
      PatchElsewhere(p.mem, b.chunk, b.off + at, bytes, d);
    }
    PatchWithin(p.mem, b, at, bytes);
    hide Patched;
    hide Data;
  }

  lemma PatchWithin(mem: map<ChunkId, seq<Byte>>, b: Block, at: nat, bytes: seq<Byte>)
    requires b.chunk in mem && b.off + b.len <= |mem[b.chunk]| && at + |bytes| <= b.len
    ensures |Data(mem, b)| == b.len
    ensures Data(mem[b.chunk := Patched(mem[b.chunk], b.off + at, bytes)], b) == Patched(Data(mem, b), at, bytes)
  {
    var old_, new_ := mem[b.chunk], Patched(mem[b.chunk], b.off + at, bytes);
    assert |new_| == |old_|;
    PatchSlice(old_, b.off, b.len, at, bytes);
    hide Patched;
  }

  lemma PatchSlice(d: seq<Byte>, off: nat, len: nat, at: nat, bytes: seq<Byte>)
    requires off + len <= |d| && at + |bytes| <= len
    ensures Patched(d, off + at, bytes)[off..off + len] == Patched(d[off..off + len], at, bytes)
  {
    assert d[..off + at][off..] == d[off..off + len][..at];
    var rest := d[off + at + |bytes|..];
    assert rest[..len - at - |bytes|] == d[off..off + len][at + |bytes|..];
  }

  lemma PatchElsewhere(mem: map<ChunkId, seq<Byte>>, c: ChunkId, at: nat, bytes: seq<Byte>, d: Block)
    requires c in mem && at + |bytes| <= |mem[c]|
    requires d.chunk != c || d.off + d.len <= at || at + |bytes| <= d.off
    ensures Data(mem[c := Patched(mem[c], at, bytes)], d) == Data(mem, d)
  {
    var new_ := Patched(mem[c], at, bytes);
    if d.chunk == c && d.off + d.len <= |mem[c]| {
      assert new_[d.off..d.off + d.len] == mem[c][d.off..d.off + d.len];
    }
  }

  // Writing into the open buffer

  /** The bytes of the open buffer changed in one place, and no block did. */
  ghost predicate Filled(p: Pool, l: Ledger, p': Pool, l': Ledger, at: nat, bytes: seq<Byte>) {
    && l' == l && p' == p.(mem := p'.mem) && Kept(p.mem, p'.mem, l.blocks)
    && p.free0 <= SizeOf(p.mem, Head(p.small)) && p.free1 <= SizeOf(p.mem, Head(p.big))
    && p'.free0 <= SizeOf(p'.mem, Head(p'.small)) && p'.free1 <= SizeOf(p'.mem, Head(p'.big))
    && BufPtr(p') == BufPtr(p)
    && |Data(p.mem, Buffer(p))| == Avail(p) && at + |bytes| <= Avail(p)
    && Data(p'.mem, Buffer(p')) == Patched(Data(p.mem, Buffer(p)), at, bytes)
  }

  /** The first bytes of the open buffer are those it had, followed by the new ones. */
  ghost predicate Appended(p: Pool, l: Ledger, p': Pool, l': Ledger, off: nat, bytes: seq<Byte>) {
    && Undisturbed(p, l, p', l') && l' == l && off + |bytes| <= Avail(p')
    && p.free0 <= SizeOf(p.mem, Head(p.small)) && p.free1 <= SizeOf(p.mem, Head(p.big))
    && p'.free0 <= SizeOf(p'.mem, Head(p'.small)) && p'.free1 <= SizeOf(p'.mem, Head(p'.big))
    && off <= |Data(p.mem, Buffer(p))| && Data(p.mem, Buffer(p))[..off] + bytes <= Data(p'.mem, Buffer(p'))
    && (BufPtr(p').off == 0 || BufPtr(p') == BufPtr(p))
  }

  lemma BufferSize(p: Pool, l: Ledger)
    requires Inv(p, l)
    ensures p.free0 <= SizeOf(p.mem, Head(p.small)) && p.free1 <= SizeOf(p.mem, Head(p.big))
    ensures |Data(p.mem, Buffer(p))| == Avail(p)
  {
    FreeBounds(p, l);
    if Avail(p) > 0 {
      InBuffer(p, l);
    }
    hide Inv;
  }

  lemma FilledNone(p: Pool, l: Ledger, at: nat)
    requires p.free0 <= SizeOf(p.mem, Head(p.small)) && p.free1 <= SizeOf(p.mem, Head(p.big))
    requires |Data(p.mem, Buffer(p))| == Avail(p) && at <= Avail(p)
    ensures Filled(p, l, p, l, at, [])
  {
  }

  /** No block reaches into the open buffer. */
  lemma BufferClear(p: Pool, l: Ledger, i: nat)
    requires Inv(p, l) && l.open && Avail(p) > 0 && i < |l.blocks|
    ensures p.free0 <= SizeOf(p.mem, Head(p.small)) && p.free1 <= SizeOf(p.mem, Head(p.big))
    ensures l.blocks[i].chunk != BufPtr(p).chunk || l.blocks[i].off + l.blocks[i].len <= BufPtr(p).off
  {
    InBuffer(p, l);
    assert Placed(p.mem, Current(p), l.blocks[i]);
    InChains(p, BufPtr(p).chunk);
    hide Partitioned;
    hide SavesOk;
  }

  lemma FilledOthers(p: Pool, l: Ledger, at: nat, bytes: seq<Byte>)
    requires Inv(p, l) && l.open && 0 < Avail(p) && at + |bytes| <= Avail(p)
    requires p.free0 <= SizeOf(p.mem, Head(p.small)) && p.free1 <= SizeOf(p.mem, Head(p.big))
    requires BufPtr(p).chunk in p.mem && BufPtr(p).off + Avail(p) == |p.mem[BufPtr(p).chunk]|
    ensures var q := BufPtr(p);
      Filled(p, l, p.(mem := p.mem[q.chunk := Patched(p.mem[q.chunk], q.off + at, bytes)]), l, at, bytes)
  {
    hide Inv;
    var q := BufPtr(p);
    var mem' := p.mem[q.chunk := Patched(p.mem[q.chunk], q.off + at, bytes)];
    forall i | 0 <= i < |l.blocks| ensures Data(mem', l.blocks[i]) == Data(p.mem, l.blocks[i]) {
      BufferClear(p, l, i);
      PatchElsewhere(p.mem, q.chunk, q.off + at, bytes, l.blocks[i]);
    }
    PatchWithin(p.mem, Buffer(p), at, bytes);
    hide Data;
  }

  lemma AppendedNow(p: Pool, l: Ledger, p1: Pool, p2: Pool, off: nat, bytes: seq<Byte>)
    requires Grown(p, l, p1, l, off + |bytes|) && Filled(p1, l, p2, l, off, bytes) && off <= |Data(p.mem, Buffer(p))|
    requires BufPtr(p1).off == 0 || BufPtr(p1) == BufPtr(p)
    ensures Appended(p, l, p2, l, off, bytes)
  {
    var d, e := Data(p.mem, Buffer(p)), Data(p1.mem, Buffer(p1));
    assert e[..off] == d[..off];
    KeptThen(p, p1, p2, l);
  }

  // Reallocation

  /** The last block has a new length and perhaps a new place; it begins with its old bytes, and the blocks
      before it are untouched. */
  ghost predicate Reallocated(p: Pool, l: Ledger, p': Pool, l': Ledger, q: Ptr, size: nat)
    requires l.blocks != []
  {
    var n := |l.blocks| - 1;
    var b := l.blocks[n];
    var d := Block(q.chunk, q.off, size, b.aligned);
    && l' == l.(blocks := l.blocks[..n] + [d])
    && p'.saves == p.saves && p'.home == p.home && p'.chunkSize == p.chunkSize
    && Kept(p.mem, p'.mem, l.blocks[..n])
    && (if size <= b.len then Data(p'.mem, d) <= Data(p.mem, b) else Data(p.mem, b) <= Data(p'.mem, d))
  }

  /** The last block's bytes are where its buffer will begin. */
  lemma TipData(p: Pool, l: Ledger, ptr: Ptr)
    requires Inv(p, l) && Reopenable(l, ptr)
    ensures var b := l.blocks[|l.blocks| - 1]; |Data(p.mem, b)| == b.len
  {
    BlockChunk(p, l, |l.blocks| - 1);
  }

  lemma FinishRealloc(p0: Pool, l0: Ledger, p1: Pool, p2: Pool, p3: Pool, l3: Ledger, q: Ptr, size: nat)
    requires l0.blocks != [] && !l0.open
    requires var b := l0.blocks[|l0.blocks| - 1];
      && |Data(p0.mem, b)| == b.len && p1.mem == p0.mem && b.len <= Avail(p1)
      && p1.free0 <= SizeOf(p1.mem, Head(p1.small)) && p1.free1 <= SizeOf(p1.mem, Head(p1.big))
      && BufPtr(p1) == Ptr(b.chunk, b.off)
      && p1.saves == p0.saves && p1.home == p0.home && p1.chunkSize == p0.chunkSize
      && Grown(p1, Dropped(l0), p2, Dropped(l0), size)
      && q == BufPtr(p2) && p3.mem == p2.mem
      && Handed(p2, Dropped(l0), p3, l3, q, size, b.aligned)
    ensures Reallocated(p0, l0, p3, l3, q, size)
  {
    var n := |l0.blocks| - 1;
    var b := l0.blocks[n];
    var d := Block(q.chunk, q.off, size, b.aligned);
    assert l3.blocks == l0.blocks[..n] + [d];
    BufferBytes(p1, b);
    BufferBytes(p2, d);
  }

  /** A block at the start of the buffer holds the buffer's first bytes. */
  lemma BufferBytes(p: Pool, b: Block)
    requires p.free0 <= SizeOf(p.mem, Head(p.small)) && p.free1 <= SizeOf(p.mem, Head(p.big))
    requires BufPtr(p) == Ptr(b.chunk, b.off) && b.len <= Avail(p)
    ensures |Data(p.mem, Buffer(p))| == (if b.chunk in p.mem then Avail(p) else 0)
    ensures |Data(p.mem, b)| == (if b.chunk in p.mem then b.len else 0)
    ensures Data(p.mem, b) == Data(p.mem, Buffer(p))[..if b.chunk in p.mem then b.len else 0]
  {
  }

  // Rewinding

  lemma RewindStart(p: Pool, l: Ledger, k: nat)
    requires Inv(p, l) && k < |p.saves|
    ensures Rewinding(p, p, k) && k < |l.marks| && l.marks[k] <= |l.blocks| && p.idx < 2
  {
    assert SaveOk(p, l, k);
    forall c | c in p.saves[k].small || c in p.saves[k].big ensures c in p.mem {
      SavedChunks(p, l, k, c);
      InChains(p, c);
    }
  }

  lemma ShorterSuffix(a: seq<ChunkId>, b: seq<ChunkId>)
    requires Suffix(a, b) && Head(a) != Head(b)
    ensures b != [] && Suffix(a, b[1..])
  {
    assert |a| == |b| ==> a == b;
    assert b[1..][|b| - 1 - |a|..] == b[|b| - |a|..];
  }

  lemma RetireStep(p0: Pool, q: Pool, k: nat)
    requires Rewinding(p0, q, k) && Head(q.small) != Head(p0.saves[k].small)
    ensures q.small != [] && Rewinding(p0, Retire(q), k)
  {
    ShorterSuffix(p0.saves[k].small, q.small);
    RetireChunks(q);
  }

  /** Two ends of one chain with the same first chunk are the same. */
  lemma SameHead(q: Pool, a: seq<ChunkId>, b: seq<ChunkId>)
    requires ChunksOk(q) && (b == q.small || b == q.big) && Suffix(a, b) && Head(a) == Head(b)
    ensures a == b
  {
    if a == [] && b != [] {
      InChains(q, b[0]);
    } else if |a| < |b| {
      var i := |b| - |a|;
      assert b[i] == a[0] == b[0];
      assert b == [b[0]] + b[1..];
      assert b[1..][i - 1] == b[0];
      assert multiset(b)[b[0]] == 1 + multiset(b[1..])[b[0]];
      OnlyOnce(q, b[0]);
    }
  }

  lemma RetireDone(p0: Pool, q: Pool, k: nat)
    requires Rewinding(p0, q, k) && Head(q.small) == Head(p0.saves[k].small)
    ensures q.small == p0.saves[k].small
  {
    SameHead(q, p0.saves[k].small, q.small);
  }

  lemma FreeBigStep(p0: Pool, q: Pool, k: nat)
    requires Rewinding(p0, q, k) && Head(q.big) != Head(p0.saves[k].big)
    ensures q.big != [] && Rewinding(p0, FreeBig(q), k)
  {
    var s := p0.saves[k];
    ShorterSuffix(s.big, q.big);
    FreeBigChunks(q);
    var c := q.big[0];
    OnlyOnce(q, c);
    Decons(q.big, c);
    InChains(q, c);
    forall d | d in s.small || d in s.big ensures d != c {
      if d in s.small {
        SuffixIn(s.small, q.small, d);
      } else {
        SuffixIn(s.big, q.big[1..], d);
        assert d in multiset(q.big[1..]);
      }
    }
  }

  lemma FreeBigDone(p0: Pool, q: Pool, k: nat)
    requires Rewinding(p0, q, k) && Head(q.big) == Head(p0.saves[k].big)
    ensures q.big == p0.saves[k].big
  {
    SameHead(q, p0.saves[k].big, q.big);
  }

  lemma HeldKept(mem: map<ChunkId, seq<Byte>>, mem': map<ChunkId, seq<Byte>>, s: Save, blocks: seq<Block>)
    requires Holds(mem, s, blocks) && SizeOf(mem, 0) == SizeOf(mem', 0) == 0
    requires forall c | c in s.small || c in s.big :: c in mem && c in mem' && mem'[c] == mem[c]
    ensures Kept(mem, mem', blocks)
  {
    forall i | 0 <= i < |blocks| ensures Data(mem', blocks[i]) == Data(mem, blocks[i]) {
      assert Placed(mem, s, blocks[i]);
    }
  }

  lemma RewindKept(p: Pool, l: Ledger, q: Pool, k: nat)
    requires Inv(p, l) && Rewinding(p, q, k) && k < |l.marks| && l.marks[k] <= |l.blocks|
    ensures Kept(p.mem, q.mem, l.blocks[..l.marks[k]])
  {
    hide Holds;
    hide BlocksOk;
    hide Partitioned;
    hide TotalOk;
    assert SaveOk(p, l, k);
    assert SizeOf(p.mem, 0) == SizeOf(q.mem, 0) == 0;
    HeldKept(p.mem, q.mem, p.saves[k], l.blocks[..l.marks[k]]);
  }

  /** The last block may be reopened unless it is older than the last save or restore. */
  predicate Reopenable(l: Ledger, ptr: Ptr) {
    !l.open && |l.blocks| > l.fence && |l.blocks| > 0
    && ptr == Ptr(l.blocks[|l.blocks| - 1].chunk, l.blocks[|l.blocks| - 1].off)
  }

  lemma TipPtr(p: Pool, l: Ledger, ptr: Ptr)
    requires Inv(p, l) && Reopenable(l, ptr)
    ensures var b := l.blocks[|l.blocks| - 1];
      if p.lastBig == Some(ptr) then BigTip(p, b) else SmallTip(p, b)
  {
    var b := l.blocks[|l.blocks| - 1];
    if SmallTip(p, b) && p.lastBig == Some(ptr) {
      InChains(p, p.big[0]);
    }
  }

  /** The open buffer has room for `size` bytes; it begins with the bytes it had, and nothing else changed. */
  ghost predicate Grown(p: Pool, l: Ledger, p': Pool, l': Ledger, size: nat) {
    && Undisturbed(p, l, p', l') && l' == l && Avail(p') >= size && Avail(p') >= Avail(p)
    && p.free0 <= SizeOf(p.mem, Head(p.small)) && p.free1 <= SizeOf(p.mem, Head(p.big))
    && p'.free0 <= SizeOf(p'.mem, Head(p'.small)) && p'.free1 <= SizeOf(p'.mem, Head(p'.big))
    && Data(p.mem, Buffer(p)) <= Data(p'.mem, Buffer(p'))
  }

  lemma BigBuffer(p: Pool, l: Ledger)
    requires Inv(p, l) && l.open && p.idx == 1
    ensures p.big != [] && p.big[0] in p.mem && p.free1 == |p.mem[p.big[0]]|
  {
    InChains(p, p.big[0]);
  }

  /** The new size of a big buffer: twice the old one if that is enough. */
  function Amortized(avail: nat, size: nat): (r: nat)
    requires avail < size <= MP_SIZE_MAX
    ensures r >= size && r % ALIGN == 0
  {
    hide AlignUp;
    var twice := if avail <= MP_SIZE_MAX / 2 then avail * 2 else MP_SIZE_MAX;
    AlignUp(if twice > size then twice else size)
  }

  lemma GrowBigKept(p: Pool, l: Ledger, data: seq<Byte>)
    requires Inv(p, l) && l.open && p.idx == 1 && p.big != [] && p.big[0] in p.mem
    requires |data| >= |p.mem[p.big[0]]| && data[..|p.mem[p.big[0]]|] == p.mem[p.big[0]]
    requires Inv(GrowBig(p, data), l)
    ensures Grown(p, l, GrowBig(p, data), l, |data|) && BufPtr(GrowBig(p, data)).off == 0
  {
    forall i | 0 <= i < |l.blocks|
      ensures Data(GrowBig(p, data).mem, l.blocks[i]) == Data(p.mem, l.blocks[i])
    {
      BlockChunk(p, l, i);
    }
  }

  lemma InBuffer(p: Pool, l: Ledger)
    requires Inv(p, l) && Avail(p) > 0
    ensures p.free0 <= SizeOf(p.mem, Head(p.small)) && p.free1 <= SizeOf(p.mem, Head(p.big))
    ensures BufPtr(p).chunk in p.mem && BufPtr(p).off + Avail(p) == |p.mem[BufPtr(p).chunk]|
  {
  }

  lemma KeptThen(p: Pool, p': Pool, p'': Pool, l: Ledger)
    requires Kept(p.mem, p'.mem, l.blocks) && Kept(p'.mem, p''.mem, l.blocks)
    ensures Kept(p.mem, p''.mem, l.blocks)
  {
  }

  lemma PatchKept(p: Pool, l: Ledger, c: ChunkId, data: seq<Byte>)
    requires forall i | 0 <= i < |l.blocks| :: l.blocks[i].chunk != c
    ensures Kept(p.mem, p.mem[c := data], l.blocks)
  {
  }

  /** A buffer of at least `size` bytes is open. */
  ghost predicate Started(p: Pool, l: Ledger, p': Pool, l': Ledger, size: nat) {
    && Undisturbed(p, l, p', l') && l' == Opened(l) && Avail(p') >= size
    && p'.free0 <= SizeOf(p'.mem, Head(p'.small)) && p'.free1 <= SizeOf(p'.mem, Head(p'.big))
  }

  lemma LastAligned(p: Pool, l: Ledger)
    requires Inv(p, l) && l.blocks != [] && l.blocks[|l.blocks| - 1].aligned
    ensures l.blocks[|l.blocks| - 1].off % ALIGN == 0
  {
  }

  lemma HeadAligned(p: Pool, l: Ledger)
    requires Inv(p, l)
    ensures SizeOf(p.mem, Head(p.small)) % ALIGN == 0 && SizeOf(p.mem, Head(p.big)) % ALIGN == 0
  {
  }

  lemma ReuseFresh(p: Pool, l: Ledger)
    requires Inv(p, l) && p.unused != []
    ensures FreshChunk(p, l, p.unused[0]) && SizeOf(p.mem, p.unused[0]) == p.chunkSize && p.threshold <= p.chunkSize
    ensures p.chunkSize % ALIGN == 0
  {
    UnusedFree(p, l);
    InChains(p, p.unused[0]);
  }

  lemma NextFresh(p: Pool, l: Ledger)
    requires Inv(p, l)
    ensures FreshChunk(p, l, p.next) && p.threshold <= p.chunkSize && p.chunkSize % ALIGN == 0
  {
    AddedKept(p, l, []);
    InChains(p, p.next);
  }

  /** A chunk no block lives in, and not one the pool was handing out from. */
  ghost predicate FreshChunk(p: Pool, l: Ledger, c: ChunkId) {
    && c != 0 && c !in p.small && c !in p.big
    && (forall i | 0 <= i < |l.blocks| :: l.blocks[i].chunk != c)
  }
}
