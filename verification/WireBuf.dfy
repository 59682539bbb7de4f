/** Reassembly of DNS messages from a byte stream: over TCP every message is preceded by its length in two
    bytes (section 4.2.2 of RFC 1035), and arrives in pieces of any size. */
module WireBuf {
  import opened Prelude

  type Byte = x: int | 0 <= x < 256

  const WIRE_HEADER_SIZE: nat := 12
  const WIRE_QUESTION_MIN_SIZE: nat := 5
  /** The least that an accepted message with its length prefix takes. */
  const FRAME_MIN_SIZE: nat := 2 + WIRE_HEADER_SIZE + WIRE_QUESTION_MIN_SIZE

  // Framing

  function Len(s: seq<Byte>): (n: nat)
    requires |s| >= 2
    ensures n < 65536
  {
    s[0] as int * 256 + s[1] as int
  }

  function Frame(m: seq<Byte>): (f: seq<Byte>)
    requires |m| < 65536
    ensures |f| == |m| + 2 && Len(f) == |m| && f[2..] == m
  {
    [|m| / 256, |m| % 256] + m
  }

  /** A message the framing can carry. */
  ghost predicate Sendable(m: seq<Byte>) {
    0 < |m| < 65536
  }

  ghost predicate AllSendable(ms: seq<seq<Byte>>) {
    forall i | 0 <= i < |ms| :: Sendable(ms[i])
  }

  ghost function Framed(ms: seq<seq<Byte>>): seq<Byte>
    requires AllSendable(ms)
  {
    if ms == [] then [] else Frame(ms[0]) + Framed(ms[1..])
  }

  ghost predicate Complete(s: seq<Byte>) {
    |s| >= 2 && Len(s) + 2 <= |s|
  }

  /** The messages at the front of a stream, up to the first incomplete or empty one. */
  ghost function Messages(s: seq<Byte>): seq<seq<Byte>>
    decreases |s|
  {
    if Complete(s) && Len(s) > 0 then [s[2..2 + Len(s)]] + Messages(s[2 + Len(s)..]) else []
  }

  lemma FramedCons(m: seq<Byte>, ms: seq<seq<Byte>>)
    requires Sendable(m) && AllSendable(ms)
    ensures AllSendable([m] + ms) && Framed([m] + ms) == Frame(m) + Framed(ms)
  {
    assert ([m] + ms)[1..] == ms;
  }

  lemma {:induction false} FramedThen(ms: seq<seq<Byte>>, ns: seq<seq<Byte>>)
    requires AllSendable(ms) && AllSendable(ns)
    ensures AllSendable(ms + ns) && Framed(ms + ns) == Framed(ms) + Framed(ns)
  {
    if ms == [] {
      assert ms + ns == ns;
    } else {
      var m, tail := ms[0], ms[1..];
      FramedThen(tail, ns);
      FramedCons(m, tail + ns);
      assert ms + ns == [m] + (tail + ns);
      hide Framed;
      FramedCons(m, tail);
      assert ms == [m] + tail;
      Assoc(Frame(m), Framed(tail), Framed(ns));
    }
  }

  /** A complete frame at the front of a stream is the frame of the message in it. */
  lemma FrameSplit(s: seq<Byte>)
    requires Complete(s)
    ensures s == Frame(s[2..2 + Len(s)]) + s[2 + Len(s)..]
  {
    var n := Len(s);
    assert n / 256 == s[0] as int && n % 256 == s[1] as int;
    assert s[..2] == [s[0], s[1]];
    assert s == s[..2] + s[2..2 + n] + s[2 + n..];
  }

  lemma FirstMessage(m: seq<Byte>, tail: seq<Byte>)
    requires Sendable(m)
    ensures Messages(Frame(m) + tail) == [m] + Messages(tail)
  {
    var s := Frame(m) + tail;
    assert Len(s) == |m|;
    assert s[2..2 + |m|] == m;
    assert s[2 + |m|..] == tail;
  }

  /** Framed messages are read back, whatever follows them. */
  lemma {:induction false} ReadBack(ms: seq<seq<Byte>>, rest: seq<Byte>)
    requires AllSendable(ms)
    ensures Messages(Framed(ms) + rest) == ms + Messages(rest)
  {
    hide Messages;
    if ms == [] {
      assert Framed(ms) + rest == rest;
      assert ms + Messages(rest) == Messages(rest);
    } else {
      var tail := Framed(ms[1..]) + rest;
      assert Framed(ms) + rest == Frame(ms[0]) + tail;
      FirstMessage(ms[0], tail);
      ReadBack(ms[1..], rest);
      assert ms == [ms[0]] + ms[1..];
      assert [ms[0]] + (ms[1..] + Messages(rest)) == ms + Messages(rest);
    }
  }

  /** Two ways of cutting one stream into messages and a rest agree, one message list continuing the other. */
  lemma PrefixOfStream(ms: seq<seq<Byte>>, rest: seq<Byte>, s: seq<Byte>)
    requires AllSendable(ms) && s == Framed(ms) + rest
    ensures ms <= Messages(s)
    ensures Messages(rest) == [] ==> ms == Messages(s)
  {
    ReadBack(ms, rest);
  }

  // What the front of the buffer is

  datatype Verdict = Wait | Bad | Message(size: nat)

  /** The buffered bytes `s` of a buffer of `size` bytes begin with a message, with something that can never
      become one, or more has to be read. */
  function TcpVerdict(s: seq<Byte>, size: nat): Verdict {
    if |s| < 2 then Wait
    else if Len(s) >= size then Bad
    else if Len(s) + 2 > |s| then Wait
    else if Len(s) == 0 then Bad
    else Message(Len(s))
  }

  /** A full buffer that has to be read on cannot be: this happens for exactly one message length, which is
      accepted although its frame is one byte longer than the buffer. */
  lemma StallsIff(s: seq<Byte>, size: nat)
    requires |s| == size >= 2
    ensures TcpVerdict(s, size) == Wait <==> Len(s) == size - 1
  {
  }

  datatype Submitted = Submitted(bytes: seq<Byte>, accepted: bool)

  function Bytes(log: seq<Submitted>): (ms: seq<seq<Byte>>)
    ensures |ms| == |log| && forall i | 0 <= i < |log| :: ms[i] == log[i].bytes
  {
    seq(|log|, i requires 0 <= i < |log| => log[i].bytes)
  }

  /** The accepted messages are at least a header and a question long. */
  ghost predicate AcceptedLong(log: seq<Submitted>) {
    forall i | 0 <= i < |log| && log[i].accepted :: |log[i].bytes| >= WIRE_HEADER_SIZE + WIRE_QUESTION_MIN_SIZE
  }

  function Accepted(log: seq<Submitted>): nat {
    if log == [] then 0 else Accepted(log[..|log| - 1]) + if log[|log| - 1].accepted then 1 else 0
  }

  lemma AcceptedStep(log: seq<Submitted>, entry: Submitted, before: nat)
    requires before <= |log|
    ensures Accepted((log + [entry])[before..]) == Accepted(log[before..]) + if entry.accepted then 1 else 0
  {
    var t := (log + [entry])[before..];
    assert t[..|t| - 1] == log[before..] && t[|t| - 1] == entry;
  }

  /** Handing on the message at the front of the buffer keeps the account. */
  lemma LogStep(log: seq<Submitted>, entry: Submitted, s: seq<Byte>)
    requires AllSendable(Bytes(log)) && Complete(s) && Len(s) > 0 && entry.bytes == s[2..2 + Len(s)]
    ensures AllSendable(Bytes(log + [entry]))
    ensures Framed(Bytes(log)) + s == Framed(Bytes(log + [entry])) + s[2 + Len(s)..]
  {
    var m := entry.bytes;
    assert Bytes(log + [entry]) == Bytes(log) + [m];
    assert AllSendable([m]);
    FramedThen(Bytes(log), [m]);
    assert Framed([m]) == Frame(m) + Framed([]) == Frame(m);
    FrameSplit(s);
    Assoc(Framed(Bytes(log)), Frame(m), s[2 + Len(s)..]);
  }

  lemma LongStep(log: seq<Submitted>, entry: Submitted, before: nat)
    requires before <= |log| && AcceptedLong((log + [entry])[before..])
    ensures AcceptedLong(log[before..])
    ensures entry.accepted ==> |entry.bytes| >= WIRE_HEADER_SIZE + WIRE_QUESTION_MIN_SIZE
  {
    var t := (log + [entry])[before..];
    assert t[|t| - 1] == entry;
    forall i | 0 <= i < |log[before..]| ensures t[i] == log[before..][i] {
    }
  }

  /** The first `i` bytes of `b` laid over `s`. */
  function Overlay(s: seq<Byte>, b: seq<Byte>, dst: nat, i: nat): (r: seq<Byte>)
    requires i <= |b| && dst + |b| <= |s|
    ensures |r| == |s|
  {
    s[..dst] + b[..i] + s[dst + i..]
  }

  lemma OverlayEnds(s: seq<Byte>, b: seq<Byte>, dst: nat)
    requires dst + |b| <= |s|
    ensures Overlay(s, b, dst, 0) == s
    ensures Overlay(s, b, dst, |b|) == s[..dst] + b + s[dst + |b|..]
  {
    assert b[..|b|] == b;
  }

  lemma OverlayStep(s: seq<Byte>, b: seq<Byte>, dst: nat, i: nat)
    requires i < |b| && dst + |b| <= |s|
    ensures Overlay(s, b, dst, i)[dst + i := b[i]] == Overlay(s, b, dst, i + 1)
  {
  }

  lemma OverlayApart(s: seq<Byte>, b: seq<Byte>, dst: nat, src: nat, i: nat)
    requires i < |b| && dst + |b| <= |s| && src + |b| <= |s| && (dst + |b| <= src || src + |b| <= dst)
    ensures Overlay(s, b, dst, i)[src + i] == s[src + i]
  {
  }

  method MemCpy(a: array<Byte>, dst: nat, src: nat, n: nat)
    requires dst + n <= a.Length && src + n <= a.Length
    requires dst + n <= src || src + n <= dst
    modifies a
    ensures a[..] == old(a[..dst]) + old(a[src..src + n]) + old(a[dst + n..])
  {
    hide Overlay;
    ghost var s, b := a[..], a[src..src + n];
    OverlayEnds(s, b, dst);
    var i := 0;
    while i < n
      invariant 0 <= i <= n && a[..] == Overlay(s, b, dst, i)
    {
      OverlayApart(s, b, dst, src, i);
      OverlayStep(s, b, dst, i);
      ghost var t := a[..];
      assert a[src + i] == t[src + i];
      a[dst + i] := a[src + i];
      assert a[..] == t[dst + i := b[i]];
      i := i + 1;
    }
  }

  method MemMove(a: array<Byte>, dst: nat, src: nat, n: nat)
    requires dst + n <= a.Length && src + n <= a.Length
    modifies a
    ensures a[..] == old(a[..dst]) + old(a[src..src + n]) + old(a[dst + n..])
  {
    hide Overlay;
    var b := a[src..src + n];
    ghost var s := a[..];
    OverlayEnds(s, b, dst);
    var i := 0;
    while i < n
      invariant 0 <= i <= n && a[..] == Overlay(s, b, dst, i)
    {
      OverlayStep(s, b, dst, i);
      ghost var t := a[..];
      a[dst + i] := b[i];
      assert a[..] == t[dst + i := b[i]];
      i := i + 1;
    }
  }

  class Session {
    const tcp: bool
    const buf: array<Byte>
    var start: nat
    var end: nat
    var error: bool
    /** What was read so far, and what became of it. */
    ghost var consumed: seq<Byte>
    ghost var log: seq<Submitted>

    ghost predicate Indices()
      reads this
    {
      start <= end <= buf.Length
    }

    ghost function Buffered(): seq<Byte>
      reads this, buf
      requires Indices()
    {
      buf[start..end]
    }

    /** The bytes read are those of the messages handed on, and those still in the buffer. */
    ghost predicate Valid()
      reads this, buf
    {
      && Indices() && AllSendable(Bytes(log))
      && consumed == Framed(Bytes(log)) + Buffered()
    }

    constructor (size: nat, tcp: bool)
      ensures Valid() && start == end == 0 && consumed == [] && log == [] && !error
      ensures buf.Length == size && fresh(buf) && this.tcp == tcp
    {
      buf := new Byte[size];
      start, end, error := 0, 0, false;
      consumed, log := [], [];
      this.tcp := tcp;
    }

    /** Accounts for bytes that were placed at the free end of the buffer. */
    method Consume(data: nat, len: int, ghost bytes: seq<Byte>) returns (r: int)
      requires Valid()
      requires data == end && 0 <= len && end + len <= buf.Length ==> bytes == buf[end..end + len]
      modifies this
      ensures Valid() && log == old(log) && error == old(error) && start == old(start)
      ensures if data == old(end) && 0 <= len && old(end) + len <= buf.Length
              then r == len && end == old(end) + len && consumed == old(consumed) + bytes
              else r < 0 && end == old(end) && consumed == old(consumed)
    {
      if data != end {
        return -22;
      }
      if len < 0 {
        return -22;
      }
      if end + len > buf.Length {
        return -22;
      }
      assert buf[start..end + len] == buf[start..end] + buf[end..end + len];
      end := end + len;
      consumed := consumed + bytes;
      r := len;
    }

    /** The message at the front of the buffer, if there is a whole one.  `pktOk` is whether a packet structure
        could be allocated for it. */
    method Produce(pktOk: bool) returns (found: bool, msg: nat, size: nat)
      requires Indices()
      modifies this
      ensures Indices() && log == old(log) && consumed == old(consumed)
      ensures Buffered() == old(Buffered())
      ensures found ==> start == old(start) && end == old(end) && pktOk && !error && 0 < size
      ensures found && tcp ==> TcpVerdict(Buffered(), buf.Length) == Message(size) && msg == start + 2
      ensures found && !tcp ==> size == end - start < 65535 && msg == start
      ensures !found && !error && tcp ==> TcpVerdict(Buffered(), buf.Length) == Wait
      ensures !found && !error && !tcp ==> Buffered() == []
      ensures !found && error && pktOk && tcp ==> TcpVerdict(Buffered(), buf.Length) == Bad
      ensures !found && error && pktOk && !tcp ==> |Buffered()| >= 65535
    {
      error := false;
      found, msg, size := false, 0, 0;
      if end == 0 {
        return;
      }
      if start == end {
        start, end := 0, 0;
        return;
      }
      assert start < end;
      msg := start;
      var dataSize := end - start;
      ghost var s := buf[start..end];
      if tcp {
        if dataSize < 2 {
          return;
        }
        size := buf[start] as int * 256 + buf[start + 1] as int;
        assert size == Len(s);
        if size >= buf.Length {
          error := true;
          return;
        }
        if size + 2 > dataSize {
          return;
        }
        if size == 0 {
          error := true;
          return;
        }
        msg := msg + 2;
      } else if dataSize < 65535 {
        size := dataSize;
      } else {
        error := true;
        return;
      }
      found := pktOk;
      error := !pktOk;
    }

    method Reset()
      modifies this
      ensures start == end == 0 && log == old(log) && consumed == old(consumed) && error == old(error)
    {
      start, end := 0, 0;
    }

    /** Moves the buffered bytes to the front; where they overlap their new place this is a move. */
    method Compress()
      requires Indices()
      modifies this, buf
      ensures Indices() && start == 0 && end == old(end) - old(start)
      ensures Buffered() == old(Buffered())
      ensures log == old(log) && consumed == old(consumed) && error == old(error)
    {
      if start == 0 {
        return;
      }
      var size := end - start;
      if start < size {
        MemMove(buf, 0, start, size);
      } else {
        MemCpy(buf, 0, start, size);
      }
      start, end := 0, size;
    }

    /** What is left after a message: nothing starts over, and little is moved to the front. */
    method Settle()
      requires Indices()
      modifies this, buf
      ensures Indices() && Buffered() == old(Buffered())
      ensures log == old(log) && consumed == old(consumed) && error == old(error)
    {
      var dataSize := end - start;
      if dataSize == 0 {
        Reset();
      } else if dataSize < WIRE_HEADER_SIZE {
        Compress();
      }
    }

    /** Takes a message off the front of the buffer.  The packet it was parsed into is at `msg`, `size` long; if
        that is not what the buffer begins with, the buffer is given up. */
    method Discard(msg: nat, size: nat) returns (ok: bool)
      requires Indices()
      modifies this, buf
      ensures Indices() && log == old(log) && consumed == old(consumed) && error == !ok
      ensures ok <==> Fits(old(Buffered()), old(start), msg, size)
      ensures ok ==> Buffered() == old(Buffered())[Taken(old(Buffered()), size)..]
      ensures !ok ==> start == end == 0
    {
      ghost var s := buf[start..end];
      var dataSize := end - start;
      var msgStart, msgSize := start, dataSize;
      error := true;
      if tcp {
        if dataSize < 2 {
          start, end := 0, 0;
          return false;
        }
        msgSize := buf[start] as int * 256 + buf[start + 1] as int;
        assert msgSize == Len(s);
        msgStart := msgStart + 2;
        if msgSize + 2 > dataSize {
          start, end := 0, 0;
          return false;
        }
      }
      if msgStart != msg {
        start, end := 0, 0;
        return false;
      }
      if msgSize < size {
        start, end := 0, 0;
        return false;
      }
      if tcp {
        start := start + msgSize + 2;
      } else {
        start := start + size;
      }
      error := false;
      assert Buffered() == s[Taken(s, size)..];
      Settle();
      ok := true;
    }

    ghost predicate Fits(s: seq<Byte>, at: nat, msg: nat, size: nat)
    {
      if tcp then Complete(s) && msg == at + 2 && size <= Len(s) else msg == at && size <= |s|
    }

    ghost function Taken(s: seq<Byte>, size: nat): nat {
      if tcp && |s| >= 2 then Len(s) + 2 else size
    }

    /** Hands on the message at the front of the buffer. */
    method Submit(msg: nat, size: nat, ghost accepted: bool)
      requires Valid() && tcp && size > 0 && TcpVerdict(Buffered(), buf.Length) == Message(size) && msg == start + 2
      modifies this, buf
      ensures Valid() && consumed == old(consumed) && !error && end - start == old(end) - old(start) - 2 - size
      ensures log == old(log) + [Submitted(old(Buffered())[2..2 + size], accepted)]
    {
      hide Framed;
      hide Bytes;
      hide AllSendable;
      ghost var s := Buffered();
      ghost var entry := Submitted(s[2..2 + size], accepted);
      LogStep(log, entry, s);
      log := log + [entry];
      var ok := Discard(msg, size);
      assert ok;
    }

    /** Hands on every message in the buffer. */
    method Process() returns (ret: int)
      requires Valid() && tcp
      modifies this, buf
      ensures Indices() && old(log) <= log && consumed == old(consumed)
      ensures ret < 0 <==> error && old(start) != old(end)
      ensures Valid()
      ensures ret >= 0 ==> ret == Accepted(log[|old(log)|..])
      ensures ret >= 0 ==>
        || TcpVerdict(Buffered(), buf.Length) == Wait
        || ret == (old(end) - old(start)) / (WIRE_HEADER_SIZE + WIRE_QUESTION_MIN_SIZE) + 1
      ensures ret >= 0 && AcceptedLong(log[|old(log)|..]) ==> TcpVerdict(Buffered(), buf.Length) == Wait
    {
      hide Framed;
      hide Bytes;
      hide AllSendable;
      hide AcceptedLong;
      ret := 0;
      assert Accepted(log[|log|..]) == 0;
      if start == end {
        return;
      }
      ghost var total, before := end - start, |log|;
      var maxIterations := (end - start) / (WIRE_HEADER_SIZE + WIRE_QUESTION_MIN_SIZE) + 1;
      while true
        invariant Valid() && consumed == old(consumed)
        invariant old(log) <= log && before == |old(log)|
        invariant 0 <= ret <= maxIterations && end - start <= total && ret == Accepted(log[before..])
        invariant AcceptedLong(log[before..]) ==> FRAME_MIN_SIZE * ret <= total - (end - start)
        decreases end - start
      {
        var pktOk: bool := *;
        var found, msg, size := Produce(pktOk);
        if !found || ret >= maxIterations {
          break;
        }
        var accepted: bool := *;
        ghost var entry := Submitted(Buffered()[2..2 + size], accepted);
        if accepted {
          ret := ret + 1;
        }
        AcceptedStep(log, entry, before);
        if AcceptedLong((log + [entry])[before..]) {
          LongStep(log, entry, before);
        }
        Submit(msg, size, accepted);
      }
      if error {
        ret := -1;
      }
    }

    /** A read of some bytes; there is never more than the free end of the buffer has room for. */
    method TcpRecv(data: seq<Byte>) returns (alive: bool)
      requires Valid() && tcp && start == 0 && |data| <= buf.Length - end
      modifies this, buf
      ensures Valid() && start == 0 && consumed == old(consumed) + data && old(log) <= log
      ensures data == [] ==> alive && log == old(log) && Buffered() == old(Buffered())
      ensures alive && data != [] && AcceptedLong(log[|old(log)|..]) ==> TcpVerdict(Buffered(), buf.Length) == Wait
    {
      if data == [] {
        return true;
      }
      ghost var s := buf[start..end];
      Fill(buf, end, data);
      assert buf[start..end] == s;
      var r := Consume(end, |data|, data);
      var ret := Process();
      alive := ret >= 0;
      Compress();
    }

    /** Receiving a stream in pieces of any sizes, until it ends, an error closes the session, or the buffer is
        full.  What is handed on does not depend on the pieces: it is the front of the stream's messages, and all
        of them if the stream ends well. */
    method Receive(stream: seq<Byte>) returns (alive: bool, full: bool, read: nat)
      requires Valid() && tcp && start == end == 0 && consumed == [] && log == [] && buf.Length >= 2
      modifies this, buf
      ensures Valid() && read <= |stream| && consumed == stream[..read]
      ensures Bytes(log) <= Messages(stream)
      ensures alive && !full ==> read == |stream|
      ensures alive && AcceptedLong(log) && !full ==> Bytes(log) == Messages(stream)
      ensures full ==> alive && |Buffered()| == buf.Length
      ensures full && AcceptedLong(log) ==> Len(Buffered()) == buf.Length - 1
    {
      hide Framed;
      hide AllSendable;
      hide AcceptedLong;
      hide Messages;
      alive, full, read := true, false, 0;
      assert TcpVerdict(Buffered(), buf.Length) == Wait;
      hide TcpVerdict;
      while alive && !full && read < |stream|
        invariant Valid() && start == 0 && read <= |stream| && consumed == stream[..read]
        invariant full ==> alive && end == buf.Length
        invariant alive && AcceptedLong(log) ==> TcpVerdict(Buffered(), buf.Length) == Wait
        decreases |stream| - read, if full then 0 else 1
      {
        if end == buf.Length {
          full := true;
        } else {
          var n: nat :| 1 <= n <= |stream| - read && n <= buf.Length - end;
          ghost var old_ := log;
          alive := TcpRecv(stream[read..read + n]);
          if AcceptedLong(log) {
            LaterLong(log, |old_|);
            EarlierLong(old_, log);
          }
          assert stream[..read + n] == stream[..read] + stream[read..read + n];
          read := read + n;
        }
      }
      StreamPrefix(Bytes(log), Buffered(), stream, read);
      if AcceptedLong(log) && alive {
        WaitEmpty(Buffered(), buf.Length);
        if full {
          StallsIff(Buffered(), buf.Length);
        }
      }
    }
  }

  lemma LaterLong(log: seq<Submitted>, k: nat)
    requires AcceptedLong(log) && k <= |log|
    ensures AcceptedLong(log[k..])
  {
    forall i | 0 <= i < |log[k..]| ensures log[k..][i] == log[k + i] {
    }
  }

  lemma EarlierLong(log: seq<Submitted>, log': seq<Submitted>)
    requires log <= log' && AcceptedLong(log')
    ensures AcceptedLong(log)
  {
    forall i | 0 <= i < |log| ensures log[i] == log'[i] {
    }
  }

  lemma StreamPrefix(ms: seq<seq<Byte>>, rest: seq<Byte>, stream: seq<Byte>, read: nat)
    requires AllSendable(ms) && read <= |stream| && stream[..read] == Framed(ms) + rest
    ensures ms <= Messages(stream)
    ensures Messages(rest) == [] && read == |stream| ==> ms == Messages(stream)
  {
    assert stream == stream[..read] + stream[read..];
    assert stream == Framed(ms) + (rest + stream[read..]);
    PrefixOfStream(ms, rest + stream[read..], stream);
    assert read == |stream| ==> rest + stream[read..] == rest;
  }

  /** While more has to be read, no message is left in the buffer. */
  lemma WaitEmpty(s: seq<Byte>, size: nat)
    requires TcpVerdict(s, size) == Wait
    ensures !Complete(s) && Messages(s) == []
  {
  }

  method Fill(a: array<Byte>, at: nat, data: seq<Byte>)
    requires at + |data| <= a.Length
    modifies a
    ensures a[..] == old(a[..at]) + data + old(a[at + |data|..])
  {
    ghost var s := a[..];
    for i := 0 to |data|
      invariant a[..] == s[..at] + data[..i] + s[at + i..]
    {
      a[at + i] := data[i];
    }
    assert data[..|data|] == data;
  }
}
