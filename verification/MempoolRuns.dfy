/** Runs of pool operations. */
module MempoolRuns {
  import opened Prelude
  import opened MempoolState
  import opened MempoolMoves
  import opened Mempools

  datatype Op =
    | AllocOp(size: nat)
    | NoalignOp(size: nat)
    | ReallocOp(ptr: Ptr, size: nat)
    | StartOp(size: nat, aligned: bool)
    | OpenOp(ptr: Ptr)
    | GrowOp(size: nat)
    | FillOp(at: nat, bytes: seq<Byte>)
    | AppendOp(off: nat, bytes: seq<Byte>)
    | EndOp(len: nat)
    | WriteOp(i: nat, at: nat, bytes: seq<Byte>)
    | PushOp
    | SaveOp
    | RestoreOp(k: nat)
    | ShrinkOp(minTotal: nat)
    | FlushOp

  /** What a run that keeps the first `floor` saves and the first `keep` blocks leaves alone. */
  ghost predicate Within(p0: Pool, l0: Ledger, p: Pool, l: Ledger, floor: nat, keep: nat) {
    && floor <= |p0.saves| && floor <= |p.saves| && p.saves[..floor] == p0.saves[..floor]
    && |l0.marks| == |p0.saves| && |l.marks| == |p.saves| && l.marks[..floor] == l0.marks[..floor]
    && keep <= |l0.blocks| && keep <= |l.blocks| && l.blocks[..keep] == l0.blocks[..keep]
    && keep <= l.fence && (forall k | floor <= k < |l.marks| :: l.marks[k] >= keep)
    && Kept(p0.mem, p.mem, l0.blocks[..keep])
  }

  /** Whatever leaves all the blocks alone leaves the first ones alone. */
  lemma WithinUndisturbed(p0: Pool, l0: Ledger, p: Pool, l: Ledger, p': Pool, l': Ledger, floor: nat, keep: nat)
    requires Within(p0, l0, p, l, floor, keep) && Undisturbed(p, l, p', l')
    ensures Within(p0, l0, p', l', floor, keep)
  {
    FirstKept(p.mem, p'.mem, l.blocks, keep);
    KeptChain(p0.mem, p.mem, p'.mem, l0.blocks[..keep]);
    assert l'.blocks[..keep] == l'.blocks[..|l.blocks|][..keep];
  }

  lemma FirstKept(mem: map<ChunkId, seq<Byte>>, mem': map<ChunkId, seq<Byte>>, blocks: seq<Block>, keep: nat)
    requires Kept(mem, mem', blocks) && keep <= |blocks|
    ensures Kept(mem, mem', blocks[..keep])
  {
    forall i | 0 <= i < keep ensures Data(mem', blocks[..keep][i]) == Data(mem, blocks[..keep][i]) {
      assert blocks[..keep][i] == blocks[i];
    }
  }

  lemma KeptChain(mem: map<ChunkId, seq<Byte>>, mem': map<ChunkId, seq<Byte>>, mem'': map<ChunkId, seq<Byte>>,
                  blocks: seq<Block>)
    requires Kept(mem, mem', blocks) && Kept(mem', mem'', blocks)
    ensures Kept(mem, mem'', blocks)
  {
  }

  lemma WithinRealloc(p0: Pool, l0: Ledger, p: Pool, l: Ledger, p': Pool, l': Ledger, q: Ptr, size: nat, floor: nat, keep: nat)
    requires Within(p0, l0, p, l, floor, keep) && |l.blocks| > l.fence && Reallocated(p, l, p', l', q, size)
    ensures Within(p0, l0, p', l', floor, keep)
  {
    var n := |l.blocks| - 1;
    FirstKept(p.mem, p'.mem, l.blocks[..n], keep);
    assert l.blocks[..n][..keep] == l.blocks[..keep] == l'.blocks[..keep];
    KeptChain(p0.mem, p.mem, p'.mem, l0.blocks[..keep]);
  }

  lemma WithinWrite(p0: Pool, l0: Ledger, p: Pool, l: Ledger, p': Pool, i: nat, floor: nat, keep: nat)
    requires Within(p0, l0, p, l, floor, keep) && p' == p.(mem := p'.mem) && keep <= i < |l.blocks|
    requires forall j | 0 <= j < |l.blocks| && j != i :: Data(p'.mem, l.blocks[j]) == Data(p.mem, l.blocks[j])
    ensures Within(p0, l0, p', l, floor, keep)
  {
    forall j | 0 <= j < keep ensures Data(p'.mem, l0.blocks[..keep][j]) == Data(p0.mem, l0.blocks[..keep][j]) {
      assert l.blocks[..keep][j] == l.blocks[j];
    }
  }

  lemma WithinSave(p0: Pool, l0: Ledger, p: Pool, l: Ledger, floor: nat, keep: nat)
    requires Within(p0, l0, p, l, floor, keep)
    ensures Within(p0, l0, SaveNow(p), Marked(l), floor, keep)
  {
    assert SaveNow(p).saves[..floor] == p.saves[..floor];
    assert Marked(l).marks[..floor] == l.marks[..floor];
  }

  lemma WithinRestore(p0: Pool, l0: Ledger, p: Pool, l: Ledger, p': Pool, k: nat, floor: nat, keep: nat)
    requires Within(p0, l0, p, l, floor, keep) && floor <= k < |l.marks| && l.marks[k] <= |l.blocks|
    requires p'.saves == p.saves[..k] && Kept(p.mem, p'.mem, Truncated(l, k).blocks)
    ensures Within(p0, l0, p', Truncated(l, k), floor, keep)
  {
    var l' := Truncated(l, k);
    assert l'.blocks[..keep] == l.blocks[..keep];
    FirstKept(p.mem, p'.mem, l'.blocks, keep);
    KeptChain(p0.mem, p.mem, p'.mem, l0.blocks[..keep]);
    assert p'.saves[..floor] == p.saves[..floor];
    assert l'.marks[..floor] == l.marks[..floor];
  }

  lemma WithinFlush(p0: Pool, l0: Ledger, p: Pool, l: Ledger, p': Pool, l': Ledger)
    requires Within(p0, l0, p, l, 0, 0) && p'.saves == [] && l'.marks == []
    ensures Within(p0, l0, p', l', 0, 0)
  {
  }

  lemma WithinDropped(p0: Pool, l0: Ledger, p: Pool, l: Ledger, p': Pool, floor: nat, keep: nat)
    requires Within(p0, l0, p, l, floor, keep) && l.fence < |l.blocks| && p'.mem == p.mem && p'.saves == p.saves
    ensures Within(p0, l0, p', Dropped(l), floor, keep)
  {
    assert Dropped(l).blocks[..keep] == l.blocks[..keep];
  }

  // The open buffer

  /** An open buffer begins with the bytes that were put into it. */
  ghost predicate Carries(p: Pool, l: Ledger, text: seq<Byte>) {
    l.open ==>
      && p.free0 <= SizeOf(p.mem, Head(p.small)) && p.free1 <= SizeOf(p.mem, Head(p.big))
      && text <= Data(p.mem, Buffer(p))
  }

  /** The known text of the buffer after bytes were written at a place in it or at its end. */
  function Edited(text: seq<Byte>, at: nat, bytes: seq<Byte>): seq<Byte>
    requires at <= |text|
  {
    text[..at] + bytes + if at + |bytes| < |text| then text[at + |bytes|..] else []
  }

  /** What an operation on the open buffer makes of its text. */
  ghost predicate Continues(op: Op, text: seq<Byte>, text': seq<Byte>) {
    match op
    case GrowOp(_) => text' == text
    case FillOp(at, bytes) => at <= |text| ==> text' == Edited(text, at, bytes)
    case AppendOp(off, bytes) => off <= |text| ==> text' == text[..off] + bytes
    case _ => true
  }

  lemma FilledCarries(p: Pool, l: Ledger, p': Pool, text: seq<Byte>, at: nat, bytes: seq<Byte>)
    requires Filled(p, l, p', l, at, bytes) && text <= Data(p.mem, Buffer(p)) && at <= |text|
    ensures Carries(p', l, Edited(text, at, bytes))
  {
    var d, d' := Data(p.mem, Buffer(p)), Data(p'.mem, Buffer(p'));
    var e := Edited(text, at, bytes);
    assert d[..|text|] == text;
    forall i | 0 <= i < |e| ensures e[i] == d'[i] {
    }
  }

  lemma AppendedCarries(p: Pool, l: Ledger, p': Pool, text: seq<Byte>, off: nat, bytes: seq<Byte>)
    requires Appended(p, l, p', l, off, bytes) && text <= Data(p.mem, Buffer(p)) && off <= |text|
    ensures Carries(p', l, text[..off] + bytes)
  {
    assert Data(p.mem, Buffer(p))[..off] == text[..off];
  }

  /** An operation on the open buffer other than closing it.  The buffer may move; its text comes along. */
  method ApplyBuffer(m: Mempool, op: Op, ghost text: seq<Byte>) returns (done: bool, ghost text': seq<Byte>)
    requires m.Valid() && m.l.open && Carries(m.p, m.l, text)
    modifies m
    ensures m.Valid() && m.l.open && Carries(m.p, m.l, text') && Undisturbed(old(m.p), old(m.l), m.p, m.l)
    ensures if done then Continues(op, text, text') else text' == text
  {
    hide Inv;
    ghost var p, l := m.p, m.l;
    text', done := text, false;
    match op {
      case GrowOp(size) =>
        var r := m.Grow(size);
        done := r.Some?;
      case FillOp(at, bytes) =>
        if at + |bytes| <= Avail(m.p) {
          m.Fill(at, bytes);
          done, text' := true, [];
          if at <= |text| {
            FilledCarries(p, l, m.p, text, at, bytes);
            text' := Edited(text, at, bytes);
          }
        }
      case AppendOp(off, bytes) =>
        if off <= Avail(m.p) {
          done := m.AppendBlock(off, bytes);
          if done {
            text' := [];
            if off <= |text| {
              AppendedCarries(p, l, m.p, text, off, bytes);
              text' := text[..off] + bytes;
            }
          }
        }
      case _ =>
    }
  }

  /** Closes the buffer: the block begins with the text. */
  method CloseBuffer(m: Mempool, len: nat, ghost text: seq<Byte>) returns (q: Ptr)
    requires m.Valid() && m.l.open && len <= Avail(m.p) && Carries(m.p, m.l, text)
    modifies m
    ensures m.Valid() && !m.l.open && Undisturbed(old(m.p), old(m.l), m.p, m.l)
    ensures q == old(BufPtr(m.p)) && m.l.blocks == old(m.l).blocks + [Block(q.chunk, q.off, len, q.off % ALIGN == 0)]
    ensures var d := Data(m.p.mem, m.l.blocks[|m.l.blocks| - 1]);
      |d| == len && if len <= |text| then d == text[..len] else text <= d
  {
    hide Inv;
    ghost var p := m.p;
    BufferSize(m.p, m.l);
    q := m.End(len, BufPtr(m.p).off % ALIGN == 0);
    ghost var b := m.l.blocks[|m.l.blocks| - 1];
    BufferBytes(p, b);
    if b.chunk !in p.mem {
      assert Avail(p) == 0;
    }
  }

  /** Opens the last block again; its bytes are the text. */
  method Reopen(m: Mempool, ptr: Ptr) returns (ghost text: seq<Byte>)
    requires m.Valid() && Reopenable(m.l, ptr)
    modifies m
    ensures m.Valid() && m.l == Dropped(old(m.l)) && m.p.mem == old(m.p).mem && m.p.saves == old(m.p).saves
    ensures Carries(m.p, m.l, text) && text == Data(old(m.p).mem, old(m.l).blocks[|old(m.l).blocks| - 1])
  {
    hide Inv;
    ghost var b := m.l.blocks[|m.l.blocks| - 1];
    text := Data(m.p.mem, b);
    TipData(m.p, m.l, ptr);
    var size := m.Open(ptr);
    FreeBounds(m.p, m.l);
    BufferBytes(m.p, b);
  }

  method StartAny(m: Mempool, size: nat, aligned: bool) returns (r: Option<Ptr>)
    requires m.Valid() && !m.l.open
    modifies m
    ensures m.Valid()
    ensures r.None? ==> size > MP_SIZE_MAX && m.p == old(m.p) && m.l == old(m.l)
    ensures r.Some? ==> Started(old(m.p), old(m.l), m.p, m.l, size) && r.value == BufPtr(m.p)
    ensures r.Some? && aligned ==> r.value.off % ALIGN == 0
  {
    if aligned {
      r := m.Start(size);
    } else {
      r := m.StartNoalign(size);
    }
  }

  /** One operation by a client who stays within what a pool allows: a block is only reallocated if it is the
      last one and newer than the last save or restore; the first `floor` saves and `keep` blocks are left alone;
      while a buffer is open, only it is worked on, or the pool is rewound. */
  method Apply(m: Mempool, op: Op, ghost p0: Pool, ghost l0: Ledger, floor: nat, keep: nat, ghost text: seq<Byte>)
    returns (ghost text': seq<Byte>)
    requires m.Valid() && Within(p0, l0, m.p, m.l, floor, keep) && Carries(m.p, m.l, text)
    modifies m
    ensures m.Valid() && Within(p0, l0, m.p, m.l, floor, keep) && Carries(m.p, m.l, text')
    ensures old(m.l).open && op.EndOp? && op.len <= Avail(old(m.p)) && op.len <= |text| ==>
      !m.l.open && m.l.blocks != [] && Data(m.p.mem, m.l.blocks[|m.l.blocks| - 1]) == text[..op.len]
    ensures old(m.l).open && m.l.open ==> text' == text || Continues(op, text, text')
  {
    hide Inv;
    hide Within;
    hide Carries;
    ghost var p, l := m.p, m.l;
    text' := text;
    match op {
      case RestoreOp(k) =>
        if floor <= k < |m.p.saves| {
          m.Restore(k);
          WithinRestore(p0, l0, p, l, m.p, k, floor, keep);
          NotOpen(m.p, m.l, text');
        }
      case FlushOp =>
        if floor == 0 && keep == 0 {
          m.Flush();
          WithinFlush(p0, l0, p, l, m.p, m.l);
          NotOpen(m.p, m.l, text');
        }
      case EndOp(len) =>
        if m.l.open && len <= Avail(m.p) {
          var q := CloseBuffer(m, len, text);
          WithinUndisturbed(p0, l0, p, l, m.p, m.l, floor, keep);
          NotOpen(m.p, m.l, text');
        }
      case _ =>
        if m.l.open {
          var done: bool;
          done, text' := ApplyBuffer(m, op, text);
          WithinUndisturbed(p0, l0, p, l, m.p, m.l, floor, keep);
        } else {
          text' := ApplyClosed(m, op, p0, l0, floor, keep);
        }
    }
  }

  lemma NotOpen(p: Pool, l: Ledger, text: seq<Byte>)
    requires !l.open
    ensures Carries(p, l, text)
  {
  }

  lemma NoText(p: Pool, l: Ledger)
    requires p.free0 <= SizeOf(p.mem, Head(p.small)) && p.free1 <= SizeOf(p.mem, Head(p.big))
    ensures Carries(p, l, [])
  {
  }

  /** An operation while no buffer is open. */
  method ApplyClosed(m: Mempool, op: Op, ghost p0: Pool, ghost l0: Ledger, floor: nat, keep: nat)
    returns (ghost text: seq<Byte>)
    requires m.Valid() && !m.l.open && Within(p0, l0, m.p, m.l, floor, keep)
    modifies m
    ensures m.Valid() && Within(p0, l0, m.p, m.l, floor, keep) && Carries(m.p, m.l, text)
  {
    hide Inv;
    hide Within;
    hide Carries;
    ghost var p, l := m.p, m.l;
    text := [];
    NotOpen(m.p, m.l, text);
    match op {
      case AllocOp(size) =>
        var r := m.Alloc(size);
        if r.Some? {
          WithinUndisturbed(p0, l0, p, l, m.p, m.l, floor, keep);
        }
      case NoalignOp(size) =>
        var r := m.AllocNoalign(size);
        if r.Some? {
          WithinUndisturbed(p0, l0, p, l, m.p, m.l, floor, keep);
        }
      case ReallocOp(ptr, size) =>
        if Reopenable(m.l, ptr) && size <= MP_SIZE_MAX {
          var q := m.Realloc(ptr, size);
          WithinRealloc(p0, l0, p, l, m.p, m.l, q, size, floor, keep);
        }
      case StartOp(size, aligned) =>
        var r := StartAny(m, size, aligned);
        if r.Some? {
          WithinUndisturbed(p0, l0, p, l, m.p, m.l, floor, keep);
          NoText(m.p, m.l);
        }
      case OpenOp(ptr) =>
        if Reopenable(m.l, ptr) {
          text := Reopen(m, ptr);
          WithinDropped(p0, l0, p, l, m.p, floor, keep);
        }
      case WriteOp(i, at, bytes) =>
        if keep <= i < |m.l.blocks| && at + |bytes| <= m.l.blocks[i].len {
          m.Write(i, Ptr(m.l.blocks[i].chunk, m.l.blocks[i].off), at, bytes);
          WithinWrite(p0, l0, p, l, m.p, i, floor, keep);
        }
      case PushOp =>
        var q := m.Push();
        WithinSave(p0, l0, p, l, floor, keep);
        WithinUndisturbed(p0, l0, SaveNow(p), Marked(l), m.p, m.l, floor, keep);
      case SaveOp =>
        m.Save();
        WithinSave(p0, l0, p, l, floor, keep);
      case ShrinkOp(minTotal) =>
        m.Shrink(minTotal);
        WithinUndisturbed(p0, l0, p, l, m.p, m.l, floor, keep);
      case _ =>
    }
    if !m.l.open {
      NotOpen(m.p, m.l, text);
    }
  }

  /** Every run keeps the pool sound and leaves the protected saves and blocks alone; a buffer left open holds
      its text. */
  method Run(m: Mempool, ops: seq<Op>, floor: nat, keep: nat) returns (ghost text: seq<Byte>)
    requires m.Valid() && !m.l.open && Within(m.p, m.l, m.p, m.l, floor, keep)
    modifies m
    ensures m.Valid() && Within(old(m.p), old(m.l), m.p, m.l, floor, keep)
    ensures Sound(m.p, m.l) && Carries(m.p, m.l, text)
  {
    hide Inv;
    hide Within;
    hide Carries;
    ghost var p0, l0 := m.p, m.l;
    text := [];
    NotOpen(m.p, m.l, text);
    for i := 0 to |ops|
      invariant m.Valid() && Within(p0, l0, m.p, m.l, floor, keep) && Carries(m.p, m.l, text)
    {
      text := Apply(m, ops[i], p0, l0, floor, keep, text);
    }
    InvSound(m.p, m.l);
  }

  // A buffer from its opening to its closing

  /** The text put so far into a buffer that was opened in another state. */
  ghost predicate Composing(p: Pool, l: Ledger, p1: Pool, l1: Ledger, text: seq<Byte>, aligned: bool) {
    && l1.open && Undisturbed(p, l, p1, l1) && l1.blocks == l.blocks
    && p1.free0 <= SizeOf(p1.mem, Head(p1.small)) && p1.free1 <= SizeOf(p1.mem, Head(p1.big))
    && |text| <= Avail(p1) && Carries(p1, l1, text)
    && (aligned ==> BufPtr(p1).off % ALIGN == 0)
  }

  lemma ComposeStart(p: Pool, l: Ledger, p1: Pool, l1: Ledger, size: nat, aligned: bool)
    requires Started(p, l, p1, l1, size) && (aligned ==> BufPtr(p1).off % ALIGN == 0)
    ensures Composing(p, l, p1, l1, [], aligned) && l1.open
  {
  }

  lemma ComposeStep(p: Pool, l: Ledger, p1: Pool, l1: Ledger, p2: Pool, text: seq<Byte>, bytes: seq<Byte>, aligned: bool)
    requires Composing(p, l, p1, l1, text, aligned) && Appended(p1, l1, p2, l1, |text|, bytes)
    ensures Composing(p, l, p2, l1, text + bytes, aligned)
  {
    AppendedCarries(p1, l1, p2, text, |text|, bytes);
    assert text[..|text|] == text;
    UndisturbedThen(p, l, p1, l1, p2, l1);
  }

  lemma ComposeReady(p: Pool, l: Ledger, p1: Pool, l1: Ledger, text: seq<Byte>, aligned: bool)
    requires Composing(p, l, p1, l1, text, aligned)
    ensures l1.open && |text| <= Avail(p1) && Carries(p1, l1, text) && l1.blocks == l.blocks && Undisturbed(p, l, p1, l1)
    ensures p1.free0 <= SizeOf(p1.mem, Head(p1.small)) && p1.free1 <= SizeOf(p1.mem, Head(p1.big))
    ensures aligned ==> BufPtr(p1).off % ALIGN == 0
  {
  }

  /** Any number of pieces appended to a growing buffer, however often it moves, make a block that holds exactly
      their concatenation; this fails only when the pieces are too long for any block. */
  method Compose(m: Mempool, size: nat, pieces: seq<seq<Byte>>, aligned: bool) returns (r: Option<Ptr>)
    requires m.Valid() && !m.l.open
    modifies m
    ensures m.Valid() && !m.l.open && Undisturbed(old(m.p), old(m.l), m.p, m.l)
    ensures size <= MP_SIZE_MAX && |Flat(pieces)| <= MP_SIZE_MAX ==> r.Some?
    ensures r.Some? ==>
      && |m.l.blocks| == |old(m.l).blocks| + 1
      && var b := m.l.blocks[|old(m.l).blocks|];
        && b == Block(r.value.chunk, r.value.off, |Flat(pieces)|, r.value.off % ALIGN == 0)
        && Data(m.p.mem, b) == Flat(pieces)
    ensures r.Some? && aligned ==> r.value.off % ALIGN == 0
  {
    hide Inv;
    hide Carries;
    hide Composing;
    hide Kept;
    hide Flat;
    FlatNone<Byte>();
    ghost var p, l := m.p, m.l;
    r := StartAny(m, size, aligned);
    if r.None? {
      UndisturbedNone(p, l);
      return;
    }
    ComposeStart(p, l, m.p, m.l, size, aligned);
    var off := 0;
    for i := 0 to |pieces|
      invariant m.Valid() && m.l.open && off == |Flat(pieces[..i])|
      invariant Composing(p, l, m.p, m.l, Flat(pieces[..i]), aligned)
    {
      ghost var p1, l1 := m.p, m.l;
      ghost var text := Flat(pieces[..i]);
      FlatTake(pieces, i);
      ComposeReady(p, l, p1, l1, text, aligned);
      var ok := m.AppendBlock(off, pieces[i]);
      if !ok {
        FlatSplit(pieces, i + 1);
        var q := CloseBuffer(m, off, text);
        UndisturbedThen(p, l, p1, l1, m.p, m.l);
        return None;
      }
      ComposeStep(p, l, p1, l1, m.p, text, pieces[i], aligned);
      off := off + |pieces[i]|;
    }
    FlatAll(pieces);
    ghost var p1, l1 := m.p, m.l;
    ComposeReady(p, l, p1, l1, Flat(pieces), aligned);
    var q := CloseBuffer(m, off, Flat(pieces));
    UndisturbedThen(p, l, p1, l1, m.p, m.l);
    assert Flat(pieces)[..off] == Flat(pieces);
    r := Some(q);
  }

  lemma UndisturbedNone(p: Pool, l: Ledger)
    ensures Undisturbed(p, l, p, l)
  {
    assert l.blocks[..|l.blocks|] == l.blocks;
  }

  lemma UndisturbedThen(p: Pool, l: Ledger, p1: Pool, l1: Ledger, p2: Pool, l2: Ledger)
    requires Undisturbed(p, l, p1, l1) && Undisturbed(p1, l1, p2, l2)
    ensures Undisturbed(p, l, p2, l2)
  {
    FirstKept(p1.mem, p2.mem, l1.blocks, |l.blocks|);
    KeptChain(p.mem, p1.mem, p2.mem, l.blocks);
    assert l2.blocks[..|l.blocks|] == l2.blocks[..|l1.blocks|][..|l.blocks|];
  }

  /** Live blocks do not overlap and lie in their chunks, aligned ones are aligned, every chunk is in exactly
      one chain, and the counted total is the sum over the three chains. */
  ghost predicate Sound(p: Pool, l: Ledger) {
    && (forall i | 0 <= i < |l.blocks| ::
          l.blocks[i].off + l.blocks[i].len <= SizeOf(p.mem, l.blocks[i].chunk))
    && (forall i, j | 0 <= i < j < |l.blocks| && l.blocks[i].chunk == l.blocks[j].chunk ::
          l.blocks[i].off + l.blocks[i].len <= l.blocks[j].off)
    && (forall i | 0 <= i < |l.blocks| && l.blocks[i].aligned :: l.blocks[i].off % ALIGN == 0)
    && multiset(p.small) + multiset(p.big) + multiset(p.unused) == multiset(p.mem.Keys)
    && p.total == ChainSize(p.mem, p.small) + ChainSize(p.mem, p.big) + ChainSize(p.mem, p.unused)
  }

  lemma InvSound(p: Pool, l: Ledger)
    requires Inv(p, l)
    ensures Sound(p, l)
  {
    forall i | 0 <= i < |l.blocks| ensures l.blocks[i].off + l.blocks[i].len <= SizeOf(p.mem, l.blocks[i].chunk) {
      BlockChunk(p, l, i);
    }
    forall i, j | 0 <= i < j < |l.blocks| && l.blocks[i].chunk == l.blocks[j].chunk
      ensures l.blocks[i].off + l.blocks[i].len <= l.blocks[j].off
    {
      assert Apart(l.blocks[i], l.blocks[j]);
    }
  }

  /** Between a push and the matching pop anything may happen: the pop brings back the blocks, their bytes, the
      free space and the earlier saves exactly as they were. */
  method Bracket(m: Mempool, ops: seq<Op>)
    requires m.Valid() && !m.l.open
    modifies m
    ensures m.Valid() && !m.l.open
    ensures m.l.blocks == old(m.l.blocks) && m.l.marks == old(m.l.marks)
    ensures m.p.saves == old(m.p.saves) && Current(m.p) == Current(old(m.p))
    ensures Kept(old(m.p.mem), m.p.mem, m.l.blocks)
  {
    hide Inv;
    hide Kept;
    ghost var p0, l0 := m.p, m.l;
    var n, keep := |m.p.saves|, |m.l.blocks|;
    MarksLength(m.p, m.l);
    var q := m.Push();
    ghost var p1, l1 := m.p, m.l;
    PushKept(p0, l0, p1, l1);
    ghost var text := Run(m, ops, n + 1, keep);
    ghost var p2, l2 := m.p, m.l;
    assert p2.saves[n] == p2.saves[..n + 1][n] == Current(p0);
    assert l2.marks[n] == l2.marks[..n + 1][n] == keep;
    m.Restore(n);
    assert m.l.blocks == l2.blocks[..keep] == l1.blocks[..keep] == l0.blocks;
    assert m.p.saves == p2.saves[..n + 1][..n] == p0.saves;
    assert m.l.marks == l2.marks[..n + 1][..n] == l0.marks;
    KeptChain(p1.mem, p2.mem, m.p.mem, l0.blocks);
    KeptChain(p0.mem, p1.mem, m.p.mem, l0.blocks);
  }

  lemma MarksLength(p: Pool, l: Ledger)
    requires Inv(p, l)
    ensures |l.marks| == |p.saves|
  {
  }

  lemma PushKept(p0: Pool, l0: Ledger, p1: Pool, l1: Ledger)
    requires |l0.marks| == |p0.saves| && Undisturbed(SaveNow(p0), Marked(l0), p1, l1)
    ensures Kept(p0.mem, p1.mem, l0.blocks) && Within(p1, l1, p1, l1, |p0.saves| + 1, |l0.blocks|)
  {
  }
}
