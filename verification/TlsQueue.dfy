/** The transport under a TLS session: what the TLS library pushes is written at once if that is possible, and
    otherwise copied and queued. */
module TlsQueue {
  import opened Prelude

  type Byte = bv8

  /** What the immediate write does: so many bytes, none because it would block, or an error. */
  datatype TryWrite = Wrote(n: nat) | Again | TryError

  datatype Push = Pushed(n: nat) | PushError

  /** The bytes of the buffers from the `skip`th on, copied into owned memory. */
  method CopyUnsent(bufs: seq<seq<Byte>>, skip: nat) returns (buf: array<Byte>, off: nat)
    requires skip <= |Flat(bufs)|
    ensures fresh(buf) && off == buf.Length == |Flat(bufs)| - skip && buf[..] == Flat(bufs)[skip..]
  {
    var total := TotalLen(bufs);
    buf := new Byte[total - skip];
    var toSkip := skip;
    off := 0;
    for i := 0 to |bufs|
      invariant 0 <= toSkip <= skip && off <= buf.Length
      invariant toSkip > 0 ==> off == 0 && |Flat(bufs[..i])| == skip - toSkip
      invariant toSkip == 0 ==> |Flat(bufs[..i])| >= skip && buf[..off] == Flat(bufs[..i])[skip..]
    {
      FlatTake(bufs, i);
      FlatSplit(bufs, i + 1);
      var base := bufs[i];
      if toSkip > 0 {
        if toSkip >= |base| {
          toSkip := toSkip - |base|;
          continue;
        }
        base := base[toSkip..];
        toSkip := 0;
      }
      CopyAt(buf, off, base);
      off := off + |base|;
    }
    FlatAll(bufs);
  }

  method TotalLen(bufs: seq<seq<Byte>>) returns (n: nat)
    ensures n == |Flat(bufs)|
  {
    n := 0;
    for i := 0 to |bufs|
      invariant n == |Flat(bufs[..i])|
    {
      FlatTake(bufs, i);
      n := n + |bufs[i]|;
    }
    FlatAll(bufs);
  }

  method CopyAt(a: array<Byte>, at: nat, b: seq<Byte>)
    requires at + |b| <= a.Length
    modifies a
    ensures a[..at] == old(a[..at]) && a[at..at + |b|] == b
  {
    ghost var s := a[..at];
    for k := 0 to |b|
      invariant a[..at] == s && a[at..at + k] == b[..k]
    {
      a[at + k] := b[k];
    }
    assert b[..|b|] == b;
  }

  lemma Joined(p: seq<Byte>, all: seq<Byte>, n: nat)
    requires n <= |all|
    ensures p + all[..n] + all[n..] == p + all && p + all[..0] == p && all[0..] == all
  {
    assert all[..n] + all[n..] == all;
  }

  class Session {
    /** On the wire; queued and not yet on the wire; on the wire but not yet reported. */
    var sent: seq<Byte>
    var queue: seq<seq<Byte>>
    var unreported: nat
    var writeQueueSize: nat
    /** Everything the TLS library has pushed and was told is taken care of. */
    ghost var pushed: seq<Byte>

    ghost predicate Valid()
      reads this
    {
      && writeQueueSize == |queue| + unreported
      && sent + Flat(queue) == pushed
    }

    constructor ()
      ensures Valid() && pushed == [] && writeQueueSize == 0
    {
      sent, queue, unreported, writeQueueSize, pushed := [], [], 0, 0, [];
    }

    /** Writes the buffers.  `try_` is what an immediate write would do; `memory` and `accepted` are whether there
        is memory for a copy, and whether the event loop takes it. */
    method VecPush(iov: seq<seq<Byte>>, try_: TryWrite, memory: bool, accepted: bool) returns (r: Push)
      requires Valid() && (try_.Wrote? ==> try_.n <= |Flat(iov)|)
      modifies this
      ensures Valid()
      ensures r.Pushed? ==> r.n == |Flat(iov)| && pushed == old(pushed) + Flat(iov)
      ensures r.PushError? ==> pushed == old(pushed) + Flat(iov)[..Partial(old(writeQueueSize), iov, try_)]
      ensures |queue| <= |old(queue)| + 1 && old(queue) <= queue
      ensures |queue| == |old(queue)| + 1 ==>
        queue[|old(queue)|] == Flat(iov)[Partial(old(writeQueueSize), iov, try_)..]
    {
      if |iov| == 0 {
        assert Flat(iov) == [];
        return Pushed(0);
      }
      hide Flat;
      var total := TotalLen(iov);
      var ret := 0;
      if writeQueueSize == 0 {
        match try_ {
          case Wrote(n) =>
            ret := n;
            WriteNow(Flat(iov)[..n]);
            if ret == total {
              assert Flat(iov)[..n] == Flat(iov);
              return Pushed(ret);
            }
          case TryError =>
            return PushError;
          case Again =>
        }
      }
      if !memory {
        return PushError;
      }
      var buf, off := CopyUnsent(iov, ret);
      if !accepted {
        return PushError;
      }
      assert buf[..off] == Flat(iov)[ret..];
      Enqueue(buf[..off]);
      Joined(old(pushed), Flat(iov), ret);
      return Pushed(total);
    }

    /** Bytes go onto the wire at once; nothing may be queued then. */
    method WriteNow(bytes: seq<Byte>)
      requires Valid() && writeQueueSize == 0
      modifies this
      ensures Valid() && pushed == old(pushed) + bytes && queue == old(queue) && writeQueueSize == 0
    {
      assert Flat(queue) == [];
      sent := sent + bytes;
      pushed := pushed + bytes;
    }

    method Enqueue(bytes: seq<Byte>)
      requires Valid()
      modifies this
      ensures Valid() && pushed == old(pushed) + bytes && queue == old(queue) + [bytes]
    {
      FlatSnoc(queue, bytes);
      queue := queue + [bytes];
      pushed := pushed + bytes;
      writeQueueSize := writeQueueSize + 1;
    }

    /** The event loop gets some bytes of the first queued buffer onto the wire; the last of them completes it. */
    method Progress(n: nat)
      requires Valid() && queue != [] && n <= |queue[0]|
      modifies this
      ensures Valid() && pushed == old(pushed) && sent == old(sent) + old(queue)[0][..n]
      ensures writeQueueSize == old(writeQueueSize)
    {
      sent := sent + queue[0][..n];
      if n == |queue[0]| {
        queue := queue[1..];
        unreported := unreported + 1;
      } else {
        ghost var q := queue;
        queue := [queue[0][n..]] + queue[1..];
        assert q[0] == q[0][..n] + q[0][n..];
      }
    }

    /** The completion of a write is reported. */
    method OnWriteComplete()
      requires Valid() && unreported > 0
      modifies this
      ensures Valid() && pushed == old(pushed) && sent == old(sent) && queue == old(queue)
      ensures writeQueueSize == old(writeQueueSize) - 1
    {
      assert writeQueueSize > 0;
      writeQueueSize := writeQueueSize - 1;
      unreported := unreported - 1;
    }

    ghost function Partial(size: nat, iov: seq<seq<Byte>>, try_: TryWrite): (n: nat)
      requires try_.Wrote? ==> try_.n <= |Flat(iov)|
      ensures n <= |Flat(iov)|
    {
      if size == 0 && try_.Wrote? && iov != [] then try_.n else 0
    }
  }

  // Runs

  datatype Event =
    | PushEvent(iov: seq<seq<Byte>>, try_: TryWrite, memory: bool, accepted: bool)
    | ProgressEvent(n: nat)
    | ReportEvent

  ghost function Asked(es: seq<Event>): seq<Byte> {
    if es == [] then []
    else Asked(es[..|es| - 1]) + (if es[|es| - 1].PushEvent? then Flat(es[|es| - 1].iov) else [])
  }

  /** Every run whose pushes all succeed puts the pushed bytes on the wire in order: what is on the wire, followed
      by what is queued, is exactly what was pushed. */
  method Run(es: seq<Event>) returns (s: Session, ok: bool)
    ensures fresh(s) && s.Valid()
    ensures ok ==> s.sent + Flat(s.queue) == Asked(es)
    ensures ok && s.writeQueueSize == 0 ==> s.sent == Asked(es)
  {
    s := new Session();
    ok := true;
    for i := 0 to |es|
      invariant fresh(s) && s.Valid() && (ok ==> s.pushed == Asked(es[..i]))
    {
      assert es[..i + 1][..i] == es[..i];
      match es[i] {
        case PushEvent(iov, try_, memory, accepted) =>
          var t := if try_.Wrote? && try_.n > |Flat(iov)| then Wrote(|Flat(iov)|) else try_;
          var r := s.VecPush(iov, t, memory, accepted);
          ok := ok && r.Pushed?;
        case ProgressEvent(n) =>
          if s.queue != [] {
            s.Progress(if n <= |s.queue[0]| then n else |s.queue[0]|);
          }
        case ReportEvent =>
          if s.unreported > 0 {
            s.OnWriteComplete();
          }
      }
    }
    assert es[..|es|] == es;
    if s.writeQueueSize == 0 {
      assert s.queue == [] && s.sent + [] == s.sent;
    }
  }

  // Reading

  class Input {
    const buf: array<Byte>
    var nread: nat
    var consumed: nat

    constructor (buf: array<Byte>, nread: nat)
      requires nread <= buf.Length
      ensures this.buf == buf && this.nread == nread && consumed == 0
    {
      this.buf, this.nread, consumed := buf, nread, 0;
    }

    /** Hands out the next bytes, at most `len` of them; none is an error. */
    method Pull(len: nat) returns (got: seq<Byte>, again: bool)
      requires consumed <= nread <= buf.Length
      modifies this
      ensures consumed <= nread == old(nread)
      ensures again <==> old(consumed) == nread
      ensures buf[..consumed] == buf[..old(consumed)] + got
      ensures |got| == if nread - old(consumed) <= len then nread - old(consumed) else len
    {
      if nread <= consumed {
        return [], true;
      }
      var avail := nread - consumed;
      var transfer := if avail < len then avail else len;
      got := buf[consumed..consumed + transfer];
      consumed := consumed + transfer;
      again := false;
    }
  }
}
