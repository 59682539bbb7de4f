/** Cache values that hold several entries: what is known about a zone apex is packed under one key, as two
    optional NSEC parameter slots and optional NS, CNAME and DNAME entries. */
module CacheList {

  type Byte = x: int | 0 <= x < 256

  const APEX_HEADER: nat := 4
  const ENTRY_HEADER: nat := 10
  const NSECS_CNT: nat := 2
  const EL_NS: nat := 2
  const EL_CNAME: nat := 3
  const EL_DNAME: nat := 4
  const EL_LENGTH: nat := 5

  function ToEven(n: nat): (r: nat)
    ensures n <= r <= n + 1 && r % 2 == 0
  {
    n + n % 2
  }

  /** Memory behind a value reads as zero. */
  function At(s: seq<Byte>, i: nat): Byte {
    if i < |s| then s[i] else 0
  }

  function Get16(s: seq<Byte>, i: nat): (n: nat)
    ensures n < 65536
  {
    At(s, i) as int + 256 * At(s, i + 1) as int
  }

  function Put16(n: nat): (s: seq<Byte>)
    requires n < 65536
    ensures |s| == 2
  {
    [n % 256, n / 256]
  }

  // Sets of resource record data

  /** `count` records in the form the DNS library keeps them in memory: each with its length in front, padded
      to an even size. */
  datatype Rdataset = Rdataset(count: nat, raw: seq<Byte>)

  ghost predicate IsRaw(raw: seq<Byte>, count: nat)
    decreases count
  {
    if count == 0 then raw == []
    else |raw| >= 2 + ToEven(Get16(raw, 0)) && IsRaw(raw[2 + ToEven(Get16(raw, 0))..], count - 1)
  }

  ghost predicate IsSet(rds: Rdataset) {
    rds.count < 65536 && IsRaw(rds.raw, rds.count)
  }

  /** The size of `count` records at `i`. */
  function RawSize(s: seq<Byte>, i: nat, count: nat): nat
    decreases count
  {
    if count == 0 then 0
    else var n := 2 + ToEven(Get16(s, i)); n + RawSize(s, i + n, count - 1)
  }

  function Dematerialized(rds: Rdataset): (s: seq<Byte>)
    requires rds.count < 65536
  {
    Put16(rds.count) + rds.raw
  }

  function DematerializedSize(s: seq<Byte>, i: nat): nat {
    2 + RawSize(s, i + 2, Get16(s, i))
  }

  /** `b` lies in `s` at `i`. */
  ghost predicate Within(s: seq<Byte>, i: nat, b: seq<Byte>) {
    i + |b| <= |s| && s[i..i + |b|] == b
  }

  lemma WithinAt(s: seq<Byte>, i: nat, b: seq<Byte>, k: nat)
    requires Within(s, i, b) && k < |b|
    ensures At(s, i + k) == b[k]
  {
    assert s[i..i + |b|][k] == b[k];
  }

  lemma WithinPart(s: seq<Byte>, i: nat, b: seq<Byte>, lo: nat, hi: nat)
    requires Within(s, i, b) && lo <= hi <= |b|
    ensures Within(s, i + lo, b[lo..hi])
  {
    var t, u := s[i + lo..i + hi], b[lo..hi];
    forall k | 0 <= k < |t| ensures t[k] == u[k] {
      WithinAt(s, i, b, lo + k);
    }
    assert t == u;
  }

  lemma Get16Within(s: seq<Byte>, i: nat, b: seq<Byte>)
    requires Within(s, i, b) && |b| >= 2
    ensures Get16(s, i) == Get16(b, 0)
  {
    WithinAt(s, i, b, 0);
    WithinAt(s, i, b, 1);
  }

  /** Records are self-delimiting: their size is found whatever surrounds them. */
  lemma {:induction false} RawDelimits(s: seq<Byte>, i: nat, raw: seq<Byte>, count: nat)
    requires Within(s, i, raw) && IsRaw(raw, count)
    ensures RawSize(s, i, count) == |raw|
    decreases count
  {
    hide Within;
    hide Get16;
    if count > 0 {
      Get16Within(s, i, raw);
      var n := 2 + ToEven(Get16(raw, 0));
      WithinPart(s, i, raw, n, |raw|);
      assert raw[n..|raw|] == raw[n..];
      RawDelimits(s, i + n, raw[n..], count - 1);
    }
  }

  lemma Get16Put(s: seq<Byte>, i: nat, n: nat)
    requires n < 65536 && Within(s, i, Put16(n))
    ensures Get16(s, i) == n
  {
    WithinAt(s, i, Put16(n), 0);
    WithinAt(s, i, Put16(n), 1);
  }

  lemma SetDelimits(s: seq<Byte>, i: nat, rds: Rdataset)
    requires IsSet(rds) && Within(s, i, Dematerialized(rds))
    ensures DematerializedSize(s, i) == |Dematerialized(rds)|
    ensures Get16(s, i) == rds.count
  {
    var b := Dematerialized(rds);
    WithinPart(s, i, b, 0, 2);
    assert b[0..2] == Put16(rds.count);
    Get16Put(s, i, rds.count);
    WithinPart(s, i, b, 2, |b|);
    assert b[2..|b|] == rds.raw;
    RawDelimits(s, i + 2, rds.raw, rds.count);
  }

  lemma {:induction false} RawEven(raw: seq<Byte>, count: nat)
    requires IsRaw(raw, count)
    ensures |raw| % 2 == 0
    decreases count
  {
    if count > 0 {
      RawEven(raw[2 + ToEven(Get16(raw, 0))..], count - 1);
    }
  }

  datatype MaterializeResult = Materialized(rds: Rdataset, used: nat) | Malformed

  /** Reads a set back; it is malformed if it does not end within the value. */
  function Materialize(s: seq<Byte>, i: nat): MaterializeResult {
    var count := Get16(s, i);
    var size := RawSize(s, i + 2, count);
    if count == 0 then Materialized(Rdataset(0, []), 2)
    else if i + 2 + size > |s| then Malformed
    else Materialized(Rdataset(count, s[i + 2..i + 2 + size]), 2 + size)
  }

  lemma MaterializeRoundTrip(s: seq<Byte>, i: nat, rds: Rdataset)
    requires IsSet(rds) && Within(s, i, Dematerialized(rds))
    ensures Materialize(s, i) == Materialized(rds, |Dematerialized(rds)|)
  {
    SetDelimits(s, i, rds);
    var b := Dematerialized(rds);
    WithinPart(s, i, b, 2, |b|);
    assert b[2..|b|] == rds.raw;
  }

  // Entries

  datatype Header = Header(time: nat, ttl: nat, rank: nat, isPacket: bool, hasOptout: bool)

  function Put32(n: nat): (s: seq<Byte>)
    requires n < 0x1_0000_0000
    ensures |s| == 4
  {
    [n % 256, n / 256 % 256, n / 256 / 256 % 256, n / 256 / 256 / 256]
  }

  function Get32(s: seq<Byte>, i: nat): (n: nat)
    ensures n < 0x1_0000_0000
  {
    At(s, i) as int + 256 * At(s, i + 1) as int + 65536 * At(s, i + 2) as int + 16777216 * At(s, i + 3) as int
  }

  ghost predicate HeaderOk(h: Header) {
    h.time < 0x1_0000_0000 && h.ttl < 0x1_0000_0000 && h.rank < 64
  }

  function PutHeader(h: Header): (s: seq<Byte>)
    requires HeaderOk(h)
    ensures |s| == ENTRY_HEADER
  {
    Put32(h.time) + Put32(h.ttl)
    + [h.rank + (if h.isPacket then 64 else 0) + (if h.hasOptout then 128 else 0), 0]
  }

  function GetHeader(s: seq<Byte>, i: nat): (h: Header)
    ensures HeaderOk(h)
  {
    var f := At(s, i + 8) as int;
    Header(Get32(s, i), Get32(s, i + 4), f % 64, f / 64 % 2 == 1, f / 128 == 1)
  }

  lemma Get32Put(s: seq<Byte>, i: nat, n: nat)
    requires n < 0x1_0000_0000 && Within(s, i, Put32(n))
    ensures Get32(s, i) == n
  {
    WithinAt(s, i, Put32(n), 0);
    WithinAt(s, i, Put32(n), 1);
    WithinAt(s, i, Put32(n), 2);
    WithinAt(s, i, Put32(n), 3);
    hide Within;
  }

  lemma HeaderRoundTrip(s: seq<Byte>, i: nat, h: Header)
    requires HeaderOk(h) && Within(s, i, PutHeader(h))
    ensures GetHeader(s, i) == h
  {
    var b := PutHeader(h);
    WithinPart(s, i, b, 0, 4);
    assert b[0..4] == Put32(h.time);
    Get32Put(s, i, h.time);
    WithinPart(s, i, b, 4, 8);
    assert b[4..8] == Put32(h.ttl);
    Get32Put(s, i + 4, h.ttl);
    WithinAt(s, i, b, 8);
  }

  /** An entry is a header followed by a record set and its signatures, or by a packet with its length. */
  datatype Entry =
    | RrEntry(h: Header, rrs: Rdataset, sigs: Rdataset)
    | PacketEntry(h: Header, wire: seq<Byte>)

  ghost predicate EntryOk(e: Entry) {
    HeaderOk(e.h) && match e
      case RrEntry(h, rrs, sigs) =>
        !h.isPacket && rrs.count < 65536 && sigs.count < 65536 && IsSet(rrs) && IsSet(sigs)
      case PacketEntry(h, wire) => h.isPacket && |wire| < 65536
  }

  function EntryBytes(e: Entry): seq<Byte>
    requires EntryOk(e)
  {
    PutHeader(e.h) + match e
      case RrEntry(_, rrs, sigs) => Dematerialized(rrs) + Dematerialized(sigs)
      case PacketEntry(_, wire) => Put16(|wire|) + wire
  }

  datatype LenResult = Length(len: nat) | BadEntry

  /** The length of the entry at `i`, found by walking over its data. */
  function EntryLen(s: seq<Byte>, i: nat): LenResult {
    var d := i + ENTRY_HEADER;
    if d >= |s| then BadEntry
    else if !GetHeader(s, i).isPacket then
      var d1 := d + DematerializedSize(s, d);
      if d1 > |s| then BadEntry
      else
        var d2 := d1 + DematerializedSize(s, d1);
        if d2 > |s| then BadEntry else Length(d2 - i)
    else if d + 2 > |s| then BadEntry
    else
      var d1 := d + 2 + ToEven(Get16(s, d));
      if d1 > |s| then BadEntry else Length(d1 - i)
  }

  lemma EntryParts(s: seq<Byte>, i: nat, e: Entry)
    requires EntryOk(e) && Within(s, i, EntryBytes(e))
    ensures Within(s, i, PutHeader(e.h))
    ensures e.RrEntry? ==>
      && Within(s, i + ENTRY_HEADER, Dematerialized(e.rrs))
      && Within(s, i + ENTRY_HEADER + |Dematerialized(e.rrs)|, Dematerialized(e.sigs))
    ensures e.PacketEntry? ==>
      && Within(s, i + ENTRY_HEADER, Put16(|e.wire|)) && Within(s, i + ENTRY_HEADER + 2, e.wire)
  {
    var b := EntryBytes(e);
    WithinPart(s, i, b, 0, ENTRY_HEADER);
    assert b[0..ENTRY_HEADER] == PutHeader(e.h);
    match e {
      case RrEntry(_, rrs, sigs) =>
        var m := ENTRY_HEADER + |Dematerialized(rrs)|;
        WithinPart(s, i, b, ENTRY_HEADER, m);
        assert b[ENTRY_HEADER..m] == Dematerialized(rrs);
        WithinPart(s, i, b, m, |b|);
        assert b[m..|b|] == Dematerialized(sigs);
      case PacketEntry(_, wire) =>
        WithinPart(s, i, b, ENTRY_HEADER, ENTRY_HEADER + 2);
        assert b[ENTRY_HEADER..ENTRY_HEADER + 2] == Put16(|wire|);
        WithinPart(s, i, b, ENTRY_HEADER + 2, |b|);
        assert b[ENTRY_HEADER + 2..|b|] == wire;
    }
  }

  lemma SetSize(rds: Rdataset)
    requires rds.count < 65536 && IsSet(rds)
    ensures |Dematerialized(rds)| >= 2 && |Dematerialized(rds)| % 2 == 0
  {
    RawEven(rds.raw, rds.count);
  }

  lemma EntrySize(e: Entry)
    requires EntryOk(e)
    ensures |EntryBytes(e)| == ENTRY_HEADER + match e
      case RrEntry(_, rrs, sigs) => |Dematerialized(rrs)| + |Dematerialized(sigs)|
      case PacketEntry(_, wire) => 2 + |wire|
    ensures e.RrEntry? ==> |EntryBytes(e)| % 2 == 0
  {
    hide PutHeader;
    hide Dematerialized;
    hide IsSet;
    if e.RrEntry? {
      SetSize(e.rrs);
      SetSize(e.sigs);
    }
  }

  /** An entry's length is recovered, up to padding, whatever surrounds it. */
  lemma EntryDelimits(s: seq<Byte>, i: nat, e: Entry)
    requires EntryOk(e) && Within(s, i, EntryBytes(e)) && i + ToEven(|EntryBytes(e)|) <= |s|
    ensures EntryLen(s, i) == Length(ToEven(|EntryBytes(e)|))
  {
    hide GetHeader;
    hide PutHeader;
    hide Within;
    hide DematerializedSize;
    hide Dematerialized;
    hide EntryBytes;
    hide Get16;
    EntryParts(s, i, e);
    EntrySize(e);
    HeaderRoundTrip(s, i, e.h);
    match e {
      case RrEntry(_, rrs, sigs) =>
        SetDelimits(s, i + ENTRY_HEADER, rrs);
        SetDelimits(s, i + ENTRY_HEADER + |Dematerialized(rrs)|, sigs);
        SetSize(rrs);
      case PacketEntry(_, wire) =>
        Get16Put(s, i + ENTRY_HEADER, |wire|);
    }
  }

  // Lists

  /** A slot of NSEC parameters: empty, a timestamp, or a timestamp and NSEC3 parameters with their salt. */
  ghost predicate IsNsecSlot(b: seq<Byte>) {
    |b| == 0 || |b| == 4 || (|b| >= 9 && |b| == 9 + b[8] as int)
  }

  /** `b` is entry `e`, possibly with the byte that pads it. */
  ghost predicate HoldsEntry(b: seq<Byte>, e: Entry) {
    EntryOk(e) && EntryBytes(e) <= b && |b| <= ToEven(|EntryBytes(e)|)
  }

  ghost predicate IsEntrySlot(b: seq<Byte>) {
    b == [] || exists e: Entry :: HoldsEntry(b, e)
  }

  ghost predicate IsList(el: seq<seq<Byte>>) {
    && |el| == EL_LENGTH
    && (forall i | 0 <= i < NSECS_CNT :: IsNsecSlot(el[i]))
    && (forall i | NSECS_CNT <= i < EL_LENGTH :: IsEntrySlot(el[i]))
  }

  /** Where slot `i` begins. */
  function Offset(lens: seq<nat>, i: nat): nat
    requires i <= |lens|
  {
    if i == 0 then APEX_HEADER else Offset(lens, i - 1) + ToEven(lens[i - 1])
  }

  function Lens(el: seq<seq<Byte>>): (ls: seq<nat>)
    ensures |ls| == |el| && forall i | 0 <= i < |el| :: ls[i] == |el[i]|
  {
    seq(|el|, i requires 0 <= i < |el| => |el[i]|)
  }

  function SerialSize(lens: seq<nat>): nat {
    Offset(lens, |lens|)
  }

  lemma {:induction false} OffsetMono(lens: seq<nat>, i: nat, j: nat)
    requires i <= j <= |lens|
    ensures Offset(lens, i) <= Offset(lens, j) && APEX_HEADER <= Offset(lens, i)
    ensures i < j ==> Offset(lens, i) + ToEven(lens[i]) <= Offset(lens, j)
    decreases j
  {
    if i < j {
      OffsetMono(lens, i, j - 1);
    } else if i > 0 {
      OffsetMono(lens, i - 1, i - 1);
    }
  }

  function NsecCode(len: nat): nat {
    if len == 0 then 0 else if len == 4 then 1 else 3
  }

  function HasFlags(lens: seq<nat>): (f: Byte)
    requires |lens| == EL_LENGTH
  {
    (if lens[EL_NS] > 0 then 1 else 0) + (if lens[EL_CNAME] > 0 then 2 else 0) + (if lens[EL_DNAME] > 0 then 4 else 0)
  }

  function HasSlot(flags: int, i: nat): bool {
    if i == EL_NS then flags % 2 == 1 else if i == EL_CNAME then flags / 2 % 2 == 1 else flags / 4 % 2 == 1
  }

  lemma HasSlotFlags(lens: seq<nat>, i: nat)
    requires |lens| == EL_LENGTH && NSECS_CNT <= i < EL_LENGTH
    ensures HasSlot(HasFlags(lens) as int, i) <==> lens[i] > 0
  {
  }

  /** `s` is the packed form of a list with these lengths; the padding may be anything. */
  ghost predicate HeadOk(s: seq<Byte>, lens: seq<nat>)
    requires |lens| == EL_LENGTH
  {
    && |s| == SerialSize(lens) && |s| >= APEX_HEADER
    && s[0] == HasFlags(lens) && s[2] == NsecCode(lens[0]) && s[3] == NsecCode(lens[1])
  }

  ghost predicate Packed(s: seq<Byte>, el: seq<seq<Byte>>)
    requires |el| == EL_LENGTH
  {
    && HeadOk(s, Lens(el))
    && (forall i | 0 <= i < EL_LENGTH :: Within(s, Offset(Lens(el), i), el[i]))
  }

  // Parsing

  datatype Slot = Slot(off: nat, len: nat)

  datatype ParseResult = Parsed(slots: seq<Slot>, end: nat) | Invalid | IllSeq

  /** Slots from `i` on, the first of them at `it`. */
  function ParsedFrom(s: seq<Byte>, i: nat, it: nat): ParseResult
    requires i <= EL_LENGTH
    decreases EL_LENGTH - i
  {
    if i == EL_LENGTH then Parsed([], it)
    else
      var len := ParsedLen(s, i, it);
      if len.BadEntry? then IllSeq
      else match ParsedFrom(s, i + 1, it + ToEven(len.len))
           case Parsed(slots, end) => Parsed([Slot(it, len.len)] + slots, end)
           case bad => bad
  }

  /** The length of slot `i` at `it`. */
  function ParsedLen(s: seq<Byte>, i: nat, it: nat): LenResult
    requires i < EL_LENGTH
  {
    if i < NSECS_CNT then
      var code := At(s, 2 + i) as int;
      if it > |s| then BadEntry
      else if code == 0 then Length(0)
      else if code == 1 then Length(4)
      else if code != 3 || it + 8 > |s| then BadEntry
      else Length(4 + 5 + At(s, it + 4 + 4) as int)
    else if !HasSlot(At(s, 0) as int, i) then Length(0)
    else if it >= |s| then BadEntry
    else EntryLen(s, it)
  }

  lemma NsecLenRead(s: seq<Byte>, i: nat, off: nat, b: seq<Byte>)
    requires i < NSECS_CNT && IsNsecSlot(b) && Within(s, off, b) && |s| >= APEX_HEADER && s[2 + i] == NsecCode(|b|)
    ensures ParsedLen(s, i, off) == Length(|b|)
  {
    if |b| >= 9 {
      WithinAt(s, off, b, 8);
    }
  }

  lemma EntryLenRead(s: seq<Byte>, i: nat, off: nat, b: seq<Byte>)
    requires NSECS_CNT <= i < EL_LENGTH && IsEntrySlot(b) && Within(s, off, b) && off + ToEven(|b|) <= |s|
    requires HasSlot(At(s, 0) as int, i) <==> |b| > 0
    ensures ParsedLen(s, i, off) == Length(ToEven(|b|))
  {
    hide HasSlot;
    hide EntryLen;
    if b != [] {
      var e: Entry :| HoldsEntry(b, e);
      hide EntryBytes;
      hide EntryOk;
      WithinPart(s, off, b, 0, |EntryBytes(e)|);
      EntryDelimits(s, off, e);
    }
  }

  lemma LenRead(s: seq<Byte>, el: seq<seq<Byte>>, i: nat)
    requires IsList(el) && Packed(s, el) && i < EL_LENGTH
    ensures ParsedLen(s, i, Offset(Lens(el), i)) == Length(ReadLen(Lens(el), i))
  {
    hide ParsedLen;
    hide Within;
    hide HasSlot;
    hide HasFlags;
    hide IsNsecSlot;
    hide IsEntrySlot;
    var lens := Lens(el);
    var off := Offset(lens, i);
    OffsetMono(lens, i, EL_LENGTH);
    if i < NSECS_CNT {
      NsecLenRead(s, i, off, el[i]);
    } else {
      HasSlotFlags(lens, i);
      EntryLenRead(s, i, off, el[i]);
    }
  }

  function Parse(s: seq<Byte>): ParseResult {
    if s == [] then Invalid else ParsedFrom(s, 0, APEX_HEADER)
  }

  function ReadLen(lens: seq<nat>, i: nat): nat
    requires i < |lens|
  {
    if i < NSECS_CNT then lens[i] else ToEven(lens[i])
  }

  /** The slots of a packed list from `i` on. */
  function SlotsFrom(lens: seq<nat>, i: nat): seq<Slot>
    requires i <= |lens|
    decreases |lens| - i
  {
    if i == |lens| then [] else [Slot(Offset(lens, i), ReadLen(lens, i))] + SlotsFrom(lens, i + 1)
  }

  lemma {:induction false} SlotsAt(lens: seq<nat>, i: nat, j: nat)
    requires i <= j < |lens|
    ensures |SlotsFrom(lens, i)| == |lens| - i
    ensures SlotsFrom(lens, i)[j - i] == Slot(Offset(lens, j), ReadLen(lens, j))
    decreases |lens| - i
  {
    if i < j {
      SlotsAt(lens, i + 1, j);
    } else if i + 1 < |lens| {
      SlotsAt(lens, i + 1, i + 1);
    }
  }

  lemma ParsedStep(s: seq<Byte>, i: nat, it: nat, len: nat, slots: seq<Slot>, end: nat)
    requires i < EL_LENGTH && ParsedLen(s, i, it) == Length(len)
    requires ParsedFrom(s, i + 1, it + ToEven(len)) == Parsed(slots, end)
    ensures ParsedFrom(s, i, it) == Parsed([Slot(it, len)] + slots, end)
  {
    hide ParsedLen;
  }

  lemma OffsetNext(lens: seq<nat>, i: nat)
    requires i < |lens|
    ensures Offset(lens, i + 1) == Offset(lens, i) + ToEven(ReadLen(lens, i))
  {
  }

  lemma PackedSize(s: seq<Byte>, el: seq<seq<Byte>>)
    requires |el| == EL_LENGTH && Packed(s, el)
    ensures |s| == Offset(Lens(el), EL_LENGTH) >= APEX_HEADER
  {
  }

  lemma SlotsStep(lens: seq<nat>, i: nat)
    requires i < |lens|
    ensures SlotsFrom(lens, i) == [Slot(Offset(lens, i), ReadLen(lens, i))] + SlotsFrom(lens, i + 1)
  {
  }

  lemma ParsedNone(s: seq<Byte>, el: seq<seq<Byte>>)
    requires |el| == EL_LENGTH && Packed(s, el)
    ensures ParsedFrom(s, EL_LENGTH, Offset(Lens(el), EL_LENGTH)) == Parsed(SlotsFrom(Lens(el), EL_LENGTH), |s|)
  {
    PackedSize(s, el);
  }

  lemma {:induction false} ParsedPacked(s: seq<Byte>, el: seq<seq<Byte>>, lens: seq<nat>, i: nat)
    requires |el| == |lens| == EL_LENGTH && IsList(el) && Packed(s, el) && lens == Lens(el) && i <= EL_LENGTH
    ensures ParsedFrom(s, i, Offset(lens, i)) == Parsed(SlotsFrom(lens, i), |s|)
    decreases EL_LENGTH - i
  {
    hide *;
    if i == EL_LENGTH {
      ParsedNone(s, el);
    } else {
      LenRead(s, el, i);
      OffsetNext(lens, i);
      ParsedPacked(s, el, lens, i + 1);
      SlotsStep(lens, i);
      ParsedStep(s, i, Offset(lens, i), ReadLen(lens, i), SlotsFrom(lens, i + 1), |s|);
    }
  }

  /** Parsing a packed list gives its slots back, and ends exactly where the value ends. */
  lemma ParseRoundTrip(s: seq<Byte>, el: seq<seq<Byte>>)
    requires IsList(el) && Packed(s, el)
    ensures Parse(s) == Parsed(SlotsFrom(Lens(el), 0), |s|)
  {
    ParsedPacked(s, el, Lens(el), 0);
    PackedSize(s, el);
    hide ParsedFrom;
    hide Packed;
    hide IsList;
  }

  method EntryHLen(s: seq<Byte>, i: nat) returns (r: LenResult)
    ensures r == if i >= |s| then BadEntry else EntryLen(s, i)
  {
    if i >= |s| {
      return BadEntry;
    }
    var d: nat := i + ENTRY_HEADER;
    if d >= |s| {
      return BadEntry;
    }
    if !GetHeader(s, i).isPacket {
      var sets := 2;
      while sets > 0
        invariant 0 <= sets <= 2 && i <= d <= |s|
        invariant sets == 2 ==> d == i + ENTRY_HEADER
        invariant sets == 1 ==> d == i + ENTRY_HEADER + DematerializedSize(s, i + ENTRY_HEADER)
        invariant sets == 0 ==> EntryLen(s, i) == Length(d - i)
      {
        d := d + DematerializedSize(s, d);
        if d > |s| {
          return BadEntry;
        }
        sets := sets - 1;
      }
    } else {
      if d + 2 > |s| {
        return BadEntry;
      }
      d := d + 2 + ToEven(Get16(s, d));
    }
    if d > |s| {
      return BadEntry;
    }
    return Length(d - i);
  }

  function Prepend(slots: seq<Slot>, r: ParseResult): ParseResult {
    match r
    case Parsed(rest, end) => Parsed(slots + rest, end)
    case bad => bad
  }

  lemma PrependStep(slots: seq<Slot>, s: seq<Byte>, i: nat, it: nat)
    requires i < EL_LENGTH
    ensures var len := ParsedLen(s, i, it);
      Prepend(slots, ParsedFrom(s, i, it)) ==
        if len.BadEntry? then IllSeq
        else Prepend(slots + [Slot(it, len.len)], ParsedFrom(s, i + 1, it + ToEven(len.len)))
  {
    hide ParsedLen;
    var len := ParsedLen(s, i, it);
    if len.Length? {
      var rest := ParsedFrom(s, i + 1, it + ToEven(len.len));
      if rest.Parsed? {
        assert slots + ([Slot(it, len.len)] + rest.slots) == slots + [Slot(it, len.len)] + rest.slots;
      }
    }
  }

  method NsecLen(s: seq<Byte>, i: nat, it: nat) returns (r: LenResult)
    requires i < NSECS_CNT
    ensures r == ParsedLen(s, i, it)
  {
    if it > |s| {
      return BadEntry;
    }
    var code := At(s, 2 + i) as int;
    if code == 0 {
      return Length(0);
    } else if code == 1 {
      return Length(4);
    } else if code == 3 {
      if it + 4 + 4 > |s| {
        return BadEntry;
      }
      return Length(4 + 5 + At(s, it + 4 + 4) as int);
    } else {
      return BadEntry;
    }
  }

  method EntrySlotLen(s: seq<Byte>, i: nat, it: nat) returns (r: LenResult)
    requires NSECS_CNT <= i < EL_LENGTH
    ensures r == ParsedLen(s, i, it)
  {
    if !HasSlot(At(s, 0) as int, i) {
      return Length(0);
    }
    if it >= |s| {
      return BadEntry;
    }
    r := EntryHLen(s, it);
  }

  method NsecSlots(s: seq<Byte>, from: seq<Slot>, start: nat) returns (ok: bool, list: seq<Slot>, it: nat)
    ensures ok ==> Prepend(from, ParsedFrom(s, 0, start)) == Prepend(list, ParsedFrom(s, NSECS_CNT, it))
    ensures !ok ==> Prepend(from, ParsedFrom(s, 0, start)) == IllSeq
  {
    assert NSECS_CNT == 2 && EL_LENGTH == 5;
    hide *;
    ok, list, it := true, from, start;
    var i: nat := 0;
    while ok && i < NSECS_CNT
      invariant 0 <= i <= NSECS_CNT <= EL_LENGTH
      invariant ok ==> Prepend(from, ParsedFrom(s, 0, start)) == Prepend(list, ParsedFrom(s, i, it))
      invariant !ok ==> Prepend(from, ParsedFrom(s, 0, start)) == IllSeq
      decreases NSECS_CNT - i, ok
    {
      PrependStep(list, s, i, it);
      var len := NsecLen(s, i, it);
      if len.BadEntry? {
        ok := false;
      } else {
        list := list + [Slot(it, len.len)];
        it := it + ToEven(len.len);
        i := i + 1;
      }
    }
  }

  method EntrySlots(s: seq<Byte>, from: seq<Slot>, start: nat) returns (ok: bool, list: seq<Slot>, it: nat)
    ensures ok ==> Prepend(from, ParsedFrom(s, NSECS_CNT, start)) == Prepend(list, ParsedFrom(s, EL_LENGTH, it))
    ensures !ok ==> Prepend(from, ParsedFrom(s, NSECS_CNT, start)) == IllSeq
  {
    assert NSECS_CNT == 2 && EL_LENGTH == 5;
    hide *;
    ok, list, it := true, from, start;
    var i: nat := NSECS_CNT;
    while ok && i < EL_LENGTH
      invariant NSECS_CNT <= i <= EL_LENGTH
      invariant ok ==> Prepend(from, ParsedFrom(s, NSECS_CNT, start)) == Prepend(list, ParsedFrom(s, i, it))
      invariant !ok ==> Prepend(from, ParsedFrom(s, NSECS_CNT, start)) == IllSeq
      decreases EL_LENGTH - i, ok
    {
      PrependStep(list, s, i, it);
      var len := EntrySlotLen(s, i, it);
      if len.BadEntry? {
        ok := false;
      } else {
        list := list + [Slot(it, len.len)];
        it := it + ToEven(len.len);
        i := i + 1;
      }
    }
  }

  /** The parser: two loops over the slots with a cursor into the value. */
  method ListParse(s: seq<Byte>) returns (r: ParseResult)
    ensures r == Parse(s)
  {
    assert NSECS_CNT == 2 && EL_LENGTH == 5;
    hide *;
    if s == [] {
      ParseEmpty(s);
      return Invalid;
    }
    ParseStart(s, [], 0, APEX_HEADER);
    var ok, list, it := NsecSlots(s, [], APEX_HEADER);
    if !ok {
      return IllSeq;
    }
    ok, list, it := EntrySlots(s, list, it);
    if !ok {
      return IllSeq;
    }
    ParsedEnd(list, s, EL_LENGTH, it);
    r := Parsed(list, it);
  }

  lemma ParseEmpty(s: seq<Byte>)
    requires s == []
    ensures Parse(s) == Invalid
  {
  }

  lemma ParseStart(s: seq<Byte>, slots: seq<Slot>, i: nat, it: nat)
    requires s != [] && slots == [] && i == 0 && it == APEX_HEADER
    ensures Parse(s) == Prepend(slots, ParsedFrom(s, i, it))
  {
    hide ParsedFrom;
    var r := ParsedFrom(s, i, it);
    assert r.Parsed? ==> slots + r.slots == r.slots;
  }

  lemma ParsedEnd(slots: seq<Slot>, s: seq<Byte>, i: nat, it: nat)
    requires i == EL_LENGTH
    ensures Prepend(slots, ParsedFrom(s, i, it)) == Parsed(slots, it)
  {
    assert slots + [] == slots;
  }

  // Serialising

  /** What goes into a slot: bytes to copy, or room to be filled in later. */
  datatype Piece = Given(bytes: seq<Byte>) | Room(size: nat)

  function PieceLen(p: Piece): nat {
    match p
    case Given(bytes) => |bytes|
    case Room(size) => size
  }

  function PieceLens(ps: seq<Piece>): (ls: seq<nat>)
    ensures |ls| == |ps| && forall i | 0 <= i < |ps| :: ls[i] == PieceLen(ps[i])
  {
    seq(|ps|, i requires 0 <= i < |ps| => PieceLen(ps[i]))
  }

  method CopyAt(a: array<Byte>, at: nat, b: seq<Byte>)
    requires at + |b| <= a.Length
    modifies a
    ensures a[..] == old(a[..at]) + b + old(a[at + |b|..])
  {
    ghost var s := a[..];
    for k := 0 to |b|
      invariant a[..] == s[..at] + b[..k] + s[at + k..]
    {
      a[at + k] := b[k];
    }
    assert b[..|b|] == b;
  }

  lemma CopyKeeps(s: seq<Byte>, t: seq<Byte>, at: nat, b: seq<Byte>, i: nat, c: seq<Byte>)
    requires at + |b| <= |s| && t == s[..at] + b + s[at + |b|..]
    requires Within(s, i, c) && (i + |c| <= at || at + |b| <= i)
    ensures Within(t, i, c)
  {
    forall k | 0 <= k < |c| ensures t[i + k] == c[k] {
      WithinAt(s, i, c, k);
    }
    assert t[i..i + |c|] == c;
  }

  lemma CopyPlaces(s: seq<Byte>, t: seq<Byte>, at: nat, b: seq<Byte>)
    requires at + |b| <= |s| && t == s[..at] + b + s[at + |b|..]
    ensures Within(t, at, b) && |t| == |s|
  {
    assert t[at..at + |b|] == b;
  }

  ghost predicate Copied(s: seq<Byte>, ps: seq<Piece>, i: nat)
    requires i < |ps|
  {
    ps[i].Given? ==> Within(s, Offset(PieceLens(ps), i), ps[i].bytes)
  }

  method PutApex(ea: array<Byte>, list: seq<Piece>)
    requires |list| == EL_LENGTH && ea.Length == SerialSize(PieceLens(list)) && ea.Length >= APEX_HEADER
    modifies ea
    ensures HeadOk(ea[..], PieceLens(list))
  {
    ghost var lens := PieceLens(list);
    ea[0], ea[1], ea[2], ea[3] := 0, 0, 0, 0;
    ea[0] := (if PieceLen(list[EL_NS]) > 0 then 1 else 0) + (if PieceLen(list[EL_CNAME]) > 0 then 2 else 0)
             + (if PieceLen(list[EL_DNAME]) > 0 then 4 else 0);
    for i := 0 to NSECS_CNT
      invariant ea[0] == HasFlags(lens)
      invariant forall j | 0 <= j < i :: ea[2 + j] == NsecCode(lens[j])
    {
      ea[2 + i] := NsecCode(PieceLen(list[i]));
    }
    assert ea[2 + 0] == NsecCode(lens[0]) && ea[2 + 1] == NsecCode(lens[1]);
  }

  lemma HeadKept(s: seq<Byte>, t: seq<Byte>, lens: seq<nat>, at: nat, b: seq<Byte>)
    requires |lens| == EL_LENGTH && HeadOk(s, lens) && APEX_HEADER <= at && at + |b| <= |s|
    requires t == s[..at] + b + s[at + |b|..]
    ensures HeadOk(t, lens)
  {
  }

  lemma CopiedKept(s: seq<Byte>, t: seq<Byte>, list: seq<Piece>, i: nat, j: nat)
    requires j < i < |list| && list[i].Given? && Copied(s, list, j)
    requires var at := Offset(PieceLens(list), i); var b := list[i].bytes;
      at + |b| <= |s| && t == s[..at] + b + s[at + |b|..]
    ensures Copied(t, list, j)
  {
    var lens := PieceLens(list);
    OffsetMono(lens, j, i);
    if list[j].Given? {
      CopyKeeps(s, t, Offset(lens, i), list[i].bytes, Offset(lens, j), list[j].bytes);
    }
  }

  /** Writes the header and the pieces; where there is only room, the bytes stay as they are. */
  method ListMemcpy(ea: array<Byte>, list: seq<Piece>)
    requires |list| == EL_LENGTH && ea.Length == SerialSize(PieceLens(list))
    modifies ea
    ensures HeadOk(ea[..], PieceLens(list))
    ensures forall i | 0 <= i < EL_LENGTH :: Copied(ea[..], list, i)
  {
    ghost var lens := PieceLens(list);
    OffsetMono(lens, 0, EL_LENGTH);
    PutApex(ea, list);
    hide HeadOk;
    hide Copied;
    var it: nat := APEX_HEADER;
    for i := 0 to EL_LENGTH
      invariant it == Offset(lens, i) && HeadOk(ea[..], lens)
      invariant forall j | 0 <= j < i :: Copied(ea[..], list, j)
    {
      OffsetMono(lens, i, EL_LENGTH);
      if list[i].Given? {
        ghost var s := ea[..];
        CopyAt(ea, it, list[i].bytes);
        HeadKept(s, ea[..], lens, it, list[i].bytes);
        forall j | 0 <= j < i ensures Copied(ea[..], list, j) {
          CopiedKept(s, ea[..], list, i, j);
        }
        CopiedNow(s, ea[..], list, i);
      } else {
        RoomCopied(ea[..], list, i);
      }
      it := it + ToEven(PieceLen(list[i]));
    }
  }

  lemma CopiedNow(s: seq<Byte>, t: seq<Byte>, list: seq<Piece>, i: nat)
    requires i < |list| && list[i].Given?
    requires var at := Offset(PieceLens(list), i); var b := list[i].bytes;
      at + |b| <= |s| && t == s[..at] + b + s[at + |b|..]
    ensures Copied(t, list, i)
  {
    CopyPlaces(s, t, Offset(PieceLens(list), i), list[i].bytes);
  }

  lemma RoomCopied(s: seq<Byte>, list: seq<Piece>, i: nat)
    requires i < |list| && list[i].Room?
    ensures Copied(s, list, i)
  {
  }

  /** Writes a set into a buffer: the count, then the records as they are. */
  method Dematerialize(rds: Rdataset, a: array<Byte>, at: nat)
    requires rds.count < 65536 && (rds.count == 0 ==> rds.raw == []) && at + 2 + |rds.raw| <= a.Length
    modifies a
    ensures Within(a[..], at, Dematerialized(rds))
    ensures a[..at] == old(a[..at]) && a[at + 2 + |rds.raw|..] == old(a[at + 2 + |rds.raw|..])
  {
    CopyAt(a, at, Put16(rds.count));
    if rds.count > 0 {
      CopyAt(a, at + 2, rds.raw);
    }
    assert a[at..at + 2 + |rds.raw|] == Dematerialized(rds);
  }
}
