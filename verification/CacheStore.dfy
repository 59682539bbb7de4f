/** Writing entries to the cache: which entry may replace which, and how a list value is taken apart and put
    together around the new entry. */
module CacheStore {
  import opened Prelude
  import opened CacheList

  // Ranks (section 5.4.1 of RFC 2181)

  const RANK_BOGUS: nat := 5
  const RANK_AUTH: nat := 16
  const RANK_SECURE: nat := 32

  /** The rank without the flag for authoritative data. */
  function RankState(rank: nat): nat {
    if rank / RANK_AUTH % 2 == 1 then rank - RANK_AUTH else rank
  }

  predicate RankOk(rank: nat) {
    rank < 64 && RankState(rank) in {0, 1, 2, 4, 5, 6, 7, 8, 32}
  }

  predicate Secure(rank: nat) {
    RankState(rank) == RANK_SECURE
  }

  /** Secure data outranks all other data, authoritative or not. */
  lemma SecureOutranks(rank: nat, secure: nat)
    requires RankOk(rank) && RankOk(secure) && Secure(secure) && !Secure(rank)
    ensures rank < secure
  {
    assert RankState(rank) <= 8;
  }

  // Age

  function NewTtl(h: Header, now: nat): int {
    var diff := Int32(now - h.time);
    Int32(h.ttl - if diff < 0 then 0 else diff)
  }

  /** Less than 1% of the time to live is left, or less than five seconds. */
  predicate Expiring(ttl: nat, newTtl: int) {
    100 * (newTtl - 5) < ttl
  }

  predicate Fresh(h: Header, now: nat) {
    NewTtl(h, now) > 0 && !Expiring(h.ttl, NewTtl(h, now))
  }

  function Consistent(b: seq<Byte>): Option<Header> {
    if |b| < ENTRY_HEADER then None
    else
      var h := GetHeader(b, 0);
      if h.isPacket && (|b| < ENTRY_HEADER + 2 || |b| < ENTRY_HEADER + 2 + Get16(b, ENTRY_HEADER)) then None
      else if RankOk(h.rank) && (RankState(h.rank) != RANK_BOGUS || h.isPacket) && (h.isPacket || !h.hasOptout)
      then Some(h)
      else None
  }

  // Keys

  const TYPE_NS: nat := 2
  const TYPE_CNAME: nat := 5
  const TYPE_DNAME: nat := 39

  function ListIndex(rrtype: nat): (i: nat)
    ensures i == 0 || NSECS_CNT <= i < EL_LENGTH
  {
    if rrtype == TYPE_NS then EL_NS else if rrtype == TYPE_CNAME then EL_CNAME
    else if rrtype == TYPE_DNAME then EL_DNAME else 0
  }

  function KeyType(rrtype: nat): nat {
    if ListIndex(rrtype) > 0 then TYPE_NS else rrtype
  }

  datatype Key = Key(name: seq<Byte>, ktype: nat)

  // Reading a list value

  function Slice(s: seq<Byte>, slot: Slot): seq<Byte> {
    if slot.off + slot.len <= |s| then s[slot.off..slot.off + slot.len] else []
  }

  /** The bytes of slot `i`, as a reader finds them. */
  function View(s: seq<Byte>, i: nat): seq<Byte> {
    var r := Parse(s);
    if r.Parsed? && i < |r.slots| then Slice(s, r.slots[i]) else []
  }

  ghost predicate IsPacked(s: seq<Byte>, el: seq<seq<Byte>>) {
    |el| == EL_LENGTH && IsList(el) && Packed(s, el)
  }

  lemma SlotPacked(s: seq<Byte>, el: seq<seq<Byte>>, i: nat)
    requires IsPacked(s, el) && i < EL_LENGTH
    ensures Within(s, Offset(Lens(el), i), el[i])
    ensures Offset(Lens(el), i) + ReadLen(Lens(el), i) <= |s|
    ensures if i < NSECS_CNT then IsNsecSlot(el[i]) else IsEntrySlot(el[i])
  {
    hide IsEntrySlot;
    hide IsNsecSlot;
    OffsetMono(Lens(el), i, EL_LENGTH);
    PackedSize(s, el);
  }

  lemma ViewAt(s: seq<Byte>, el: seq<seq<Byte>>, i: nat)
    requires IsPacked(s, el) && i < EL_LENGTH
    ensures Parse(s).Parsed? && |Parse(s).slots| == EL_LENGTH
    ensures View(s, i) == Slice(s, Slot(Offset(Lens(el), i), ReadLen(Lens(el), i)))
    ensures Parse(s).slots[i] == Slot(Offset(Lens(el), i), ReadLen(Lens(el), i))
  {
    ParseRoundTrip(s, el);
    hide Parse;
    hide IsPacked;
    SlotsAt(Lens(el), 0, i);
  }

  lemma EntryView(b: seq<Byte>, v: seq<Byte>)
    requires IsEntrySlot(b) && b <= v && |v| == ToEven(|b|)
    ensures IsEntrySlot(v)
  {
    if b != [] {
      var e: Entry :| HoldsEntry(b, e);
      assert HoldsEntry(v, e) by {
        hide EntryBytes;
        hide EntryOk;
        assert b[..|EntryBytes(e)|] == v[..|EntryBytes(e)|];
      }
    }
  }

  /** A reader of a packed list finds every slot, the entries with their padding. */
  lemma ViewPacked(s: seq<Byte>, el: seq<seq<Byte>>, i: nat)
    requires IsPacked(s, el) && i < EL_LENGTH
    ensures el[i] <= View(s, i) && |View(s, i)| == ReadLen(Lens(el), i)
    ensures i < NSECS_CNT ==> View(s, i) == el[i] && IsNsecSlot(View(s, i))
    ensures i >= NSECS_CNT ==> IsEntrySlot(View(s, i))
    ensures Parse(s).Parsed? && |Parse(s).slots| == EL_LENGTH
  {
    hide View;
    hide Parse;
    hide IsEntrySlot;
    hide IsNsecSlot;
    hide Within;
    hide Offset;
    hide Slice;
    var lens := Lens(el);
    SlotPacked(s, el, i);
    ViewAt(s, el, i);
    ViewSlot(s, Offset(lens, i), el[i], ReadLen(lens, i));
    if i >= NSECS_CNT {
      EntryView(el[i], View(s, i));
    }
  }

  lemma ViewSlot(s: seq<Byte>, off: nat, b: seq<Byte>, len: nat)
    requires Within(s, off, b) && |b| <= len && off + len <= |s|
    ensures b <= Slice(s, Slot(off, len)) && |Slice(s, Slot(off, len))| == len
  {
    assert s[off..off + len][..|b|] == s[off..off + |b|];
  }

  datatype SeekResult = Found(slot: Slot) | Absent | SeekError

  function Seek(s: seq<Byte>, rrtype: nat): SeekResult {
    var i := ListIndex(rrtype);
    if i == 0 then Found(Slot(0, |s|))
    else
      var r := Parse(s);
      if !r.Parsed? || |r.slots| != EL_LENGTH then SeekError
      else if r.slots[i].len == 0 then Absent
      else Found(r.slots[i])
  }

  /** On a packed list the seek finds exactly what was packed for the type: nothing, or the entry with its padding. */
  lemma SeekPacked(s: seq<Byte>, el: seq<seq<Byte>>, rrtype: nat)
    requires IsPacked(s, el) && ListIndex(rrtype) > 0
    ensures var i := ListIndex(rrtype);
      if el[i] == [] then Seek(s, rrtype) == Absent
      else
        && Seek(s, rrtype).Found?
        && var v := Slice(s, Seek(s, rrtype).slot);
          el[i] <= v && |v| == ToEven(|el[i]|) && IsEntrySlot(v) && forall e | HoldsEntry(el[i], e) :: HoldsEntry(v, e)
  {
    hide Parse;
    hide Packed;
    hide IsList;
    hide IsEntrySlot;
    var i := ListIndex(rrtype);
    ViewPacked(s, el, i);
    ViewAt(s, el, i);
    if el[i] != [] {
      var v := View(s, i);
      forall e | HoldsEntry(el[i], e) ensures HoldsEntry(v, e) {
        hide EntryBytes;
        hide EntryOk;
        assert el[i][..|EntryBytes(e)|] == v[..|EntryBytes(e)|];
      }
    }
  }

  // Taking a list apart and putting it together again

  /** The slots as they are copied into the new value. */
  function OldSlots(db: map<Key, seq<Byte>>, key: Key): (el: seq<seq<Byte>>)
    ensures |el| == EL_LENGTH
  {
    if key in db && Parse(db[key]).Parsed? then Views(db[key]) else [[], [], [], [], []]
  }

  function Views(s: seq<Byte>): (el: seq<seq<Byte>>)
    ensures |el| == EL_LENGTH && forall j | 0 <= j < |el| :: el[j] == View(s, j)
  {
    seq(EL_LENGTH, j requires 0 <= j < EL_LENGTH => View(s, j))
  }

  function AsPieces(el: seq<seq<Byte>>): (ps: seq<Piece>)
    ensures |ps| == |el| && forall j | 0 <= j < |el| :: ps[j] == Given(el[j])
  {
    seq(|el|, j requires 0 <= j < |el| => Given(el[j]))
  }

  lemma EmptyIsList()
    ensures IsList([[], [], [], [], []])
  {
  }

  lemma OldSlotsList(db: map<Key, seq<Byte>>, key: Key)
    requires key in db ==> exists el :: IsPacked(db[key], el)
    ensures IsList(OldSlots(db, key))
  {
    if key in db {
      var el :| IsPacked(db[key], el);
      hide IsPacked;
      hide View;
      hide Parse;
      hide IsNsecSlot;
      hide IsEntrySlot;
      ViewPacked(db[key], el, 0);
      forall j | 0 <= j < EL_LENGTH
        ensures if j < NSECS_CNT then IsNsecSlot(View(db[key], j)) else IsEntrySlot(View(db[key], j))
      {
        ViewPacked(db[key], el, j);
      }
    } else {
      EmptyIsList();
    }
  }

  lemma EntryIsSlot(e: Entry)
    requires EntryOk(e)
    ensures IsEntrySlot(EntryBytes(e)) && |EntryBytes(e)| > ENTRY_HEADER
  {
    hide EntryBytes;
    EntrySize(e);
    if e.RrEntry? {
      SetSize(e.rrs);
    }
    assert HoldsEntry(EntryBytes(e), e);
  }

  lemma EntryNonempty(e: Entry)
    requires EntryOk(e)
    ensures |EntryBytes(e)| > 0
  {
    EntryIsSlot(e);
  }

  lemma ListWith(el: seq<seq<Byte>>, i: nat, e: Entry)
    requires IsList(el) && NSECS_CNT <= i < EL_LENGTH && EntryOk(e)
    ensures IsList(el[i := EntryBytes(e)])
  {
    hide IsEntrySlot;
    hide IsNsecSlot;
    hide EntryOk;
    hide EntryBytes;
    EntryIsSlot(e);
  }

  /** Once the room left for slot `i` is filled, the value is the packed form of the new list. */
  lemma FilledPacked(s: seq<Byte>, t: seq<Byte>, el: seq<seq<Byte>>, i: nat, b: seq<Byte>)
    requires |el| == EL_LENGTH && i < EL_LENGTH
    requires var ps := AsPieces(el)[i := Room(|b|)]; var at := Offset(PieceLens(ps), i);
      && HeadOk(s, PieceLens(ps)) && (forall j | 0 <= j < EL_LENGTH :: Copied(s, ps, j))
      && at + |b| <= |s| && t == s[..at] + b + s[at + |b|..]
    ensures Packed(t, el[i := b])
  {
    var ps := AsPieces(el)[i := Room(|b|)];
    var lens := PieceLens(ps);
    assert Lens(el[i := b]) == lens;
    var at := Offset(lens, i);
    OffsetMono(lens, 0, i);
    HeadKept(s, t, lens, at, b);
    CopyPlaces(s, t, at, b);
    hide HeadOk;
    forall j | 0 <= j < EL_LENGTH ensures Within(t, Offset(lens, j), el[i := b][j]) {
      if j != i {
        assert Copied(s, ps, j);
        if j < i {
          OffsetMono(lens, j, i);
        } else {
          OffsetMono(lens, i, j);
        }
        CopyKeeps(s, t, at, b, Offset(lens, j), el[j]);
      }
    }
  }

  /** The header of the entry a write would replace. */
  function Present(db: map<Key, seq<Byte>>, key: Key, rrtype: nat): Option<Header> {
    if key !in db then None
    else if ListIndex(rrtype) > 0 then Consistent(View(db[key], ListIndex(rrtype)))
    else Consistent(db[key])
  }

  /** A write of data that is not secure is refused when it would not improve on a fresh entry. */
  predicate Refused(db: map<Key, seq<Byte>>, key: Key, rrtype: nat, rank: nat, now: nat) {
    && !Secure(rank)
    && var old_ := Present(db, key, rrtype);
      old_.Some? && Fresh(old_.value, now) && rank <= old_.value.rank
  }

  datatype WriteOutcome = WriteOk | OutOfSpace | WriteError

  datatype SpliceResult = Ready(off: nat) | Exists | NoSpace | Failed | BadArgument

  /** `val` has room for an entry of `len` bytes at `off`; around it are the other slots of the old value. */
  ghost predicate Spliced(db: map<Key, seq<Byte>>, val: seq<Byte>, key: Key, rrtype: nat, len: nat, off: nat) {
    var i := ListIndex(rrtype);
    if i == 0 then |val| == len && off == 0
    else
      var ps := AsPieces(OldSlots(db, key))[i := Room(len)];
      && off == Offset(PieceLens(ps), i) && HeadOk(val, PieceLens(ps))
      && (forall j | 0 <= j < EL_LENGTH :: Copied(val, ps, j))
  }

  // NSEC and NSEC3 parameters of a zone

  const TTL_MARGIN: int := 3600

  /** The parameters of one chain as they come off the wire: none for NSEC, else with the salt they announce. */
  predicate IsParams(params: seq<Byte>) {
    params == [] || (|params| >= 5 && |params| == 5 + params[4] as int)
  }

  function NsecSlot(params: seq<Byte>, until: nat): (b: seq<Byte>)
    requires IsParams(params) && until < 0x1_0000_0000
    ensures IsNsecSlot(b)
  {
    Put32(until) + params
  }

  predicate SameChain(b: seq<Byte>, params: seq<Byte>) {
    |b| == 4 + |params| && b[4..] == params
  }

  /** The chain is listed, and would be extended only a little. */
  predicate Recent(b: seq<Byte>, params: seq<Byte>, until: nat) {
    SameChain(b, params) && Int32(until - Get32(b, 0)) < TTL_MARGIN
  }

  /** The first of the two slots that lists the chain decides whether the write is worth it. */
  predicate Skipped(a: seq<Byte>, b: seq<Byte>, params: seq<Byte>, until: nat) {
    if SameChain(a, params) then Recent(a, params, until) else Recent(b, params, until)
  }

  /** The chain is listed first, before the other chain that was listed last; all else is found as before. */
  ghost predicate Listed(db: map<Key, seq<Byte>>, db': map<Key, seq<Byte>>, key: Key, params: seq<Byte>, until: nat)
    requires IsParams(params) && until < 0x1_0000_0000
  {
    && key in db' && db' == db[key := db'[key]]
    && SlotIn(db', key, 0) == NsecSlot(params, until)
    && SlotIn(db', key, 1) == SlotIn(db, key, if SameChain(SlotIn(db, key, 0), params) then 1 else 0)
    && forall j | NSECS_CNT <= j < EL_LENGTH :: SlotIn(db', key, j) == SlotIn(db, key, j)
  }

  /** No chain is listed twice. */
  predicate Apart(db: map<Key, seq<Byte>>, key: Key) {
    var a, b := SlotIn(db, key, 0), SlotIn(db, key, 1);
    a == [] || b == [] || |a| < 4 || !SameChain(b, a[4..])
  }

  lemma ListedApart(db: map<Key, seq<Byte>>, db': map<Key, seq<Byte>>, key: Key, params: seq<Byte>, until: nat)
    requires IsParams(params) && until < 0x1_0000_0000 && Listed(db, db', key, params, until) && Apart(db, key)
    ensures Apart(db', key)
  {
    hide View;
    assert NsecSlot(params, until)[4..] == params;
  }

  lemma ListedStored(db: map<Key, seq<Byte>>, full: seq<Byte>, key: Key, el: seq<seq<Byte>>, i: nat,
                     params: seq<Byte>, until: nat)
    requires IsParams(params) && until < 0x1_0000_0000 && (key in db ==> exists old_ :: IsPacked(db[key], old_))
    requires i < NSECS_CNT && i == (if SameChain(SlotIn(db, key, 0), params) then 0 else 1)
    requires el == Shifted(OldSlots(db, key), i)[0 := NsecSlot(params, until)] && Packed(full, el)
    ensures ValueOk(TYPE_NS, full) && Listed(db, db[key := full], key, params, until)
  {
    hide Packed;
    hide IsNsecSlot;
    hide IsEntrySlot;
    hide View;
    hide NsecSlot;
    hide OldSlots;
    hide SameChain;
    OldSlotsList(db, key);
    assert IsPacked(full, el);
    hide IsPacked;
    hide IsList;
    ViewPacked(full, el, 0);
    ViewPacked(full, el, 1);
    OldSlotView(db, key, 0);
    OldSlotView(db, key, 1);
    forall j | NSECS_CNT <= j < EL_LENGTH ensures View(full, j) == SlotIn(db, key, j) {
      ViewPacked(full, el, j);
      OldSlotView(db, key, j);
    }
  }

  /** The first `i` slots move one place back, over slot `i`. */
  function Shifted(el: seq<seq<Byte>>, i: nat): (r: seq<seq<Byte>>)
    requires i < |el|
    ensures |r| == |el|
  {
    el[..1] + el[..i] + el[i + 1..]
  }

  /** Packs a list whose first slot is `b`. */
  method Assemble(el: seq<seq<Byte>>, b: seq<Byte>) returns (full: seq<Byte>)
    requires |el| == EL_LENGTH
    ensures Packed(full, el[0 := b])
  {
    var ps := AsPieces(el)[0 := Room(|b|)];
    var buf := new Byte[SerialSize(PieceLens(ps))];
    ListMemcpy(buf, ps);
    var s, at := buf[..], Offset(PieceLens(ps), 0);
    assert PieceLens(ps)[0] == |b|;
    OffsetMono(PieceLens(ps), 0, EL_LENGTH);
    full := s[..at] + b + s[at + |b|..];
    hide HeadOk;
    hide Copied;
    FilledPacked(s, full, el, 0, b);
  }

  class Cache {
    var db: map<Key, seq<Byte>>

    /** Reserves room in the database; a full database is cleared. */
    method WriteOrClear(key: Key, val: seq<Byte>, outcome: WriteOutcome) returns (r: SpliceResult)
      modifies this
      ensures r == (match outcome case WriteOk => Ready(0) case OutOfSpace => NoSpace case WriteError => Failed)
      ensures db == (match outcome
                     case WriteOk => old(db)[key := val]
                     case OutOfSpace => map[]
                     case WriteError => old(db))
    {
      match outcome {
        case WriteOk =>
          db := db[key := val];
          r := Ready(0);
        case OutOfSpace =>
          db := map[];
          r := NoSpace;
        case WriteError =>
          r := Failed;
      }
    }

    /** Prepares room for an entry of `len` bytes: the rest of the value is copied around it. */
    method Splice(key: Key, rrtype: nat, rank: nat, len: nat, now: nat, outcome: WriteOutcome)
      returns (r: SpliceResult)
      requires key.ktype == KeyType(rrtype)
      modifies this
      ensures r == BadArgument <==> len == 0
      ensures r == Exists <==> len > 0 && Refused(old(db), key, rrtype, rank, now)
      ensures r == Exists || r == Failed || r == BadArgument ==> db == old(db)
      ensures r == NoSpace ==> db == map[] && outcome == OutOfSpace
      ensures r.Ready? ==> key in db && db == old(db)[key := db[key]]
      ensures r.Ready? ==> Spliced(old(db), db[key], key, rrtype, len, r.off)
    {
      if len == 0 {
        return BadArgument;
      }
      hide Parse;
      hide View;
      hide Consistent;
      hide Fresh;
      var i := ListIndex(rrtype);
      var orig: Option<Header> := None;
      var el: seq<seq<Byte>> := [[], [], [], [], []];
      if !Secure(rank) || key.ktype == TYPE_NS {
        if key in db {
          var val := db[key];
          if i > 0 {
            var p := ListParse(val);
            if p.Parsed? {
              el := Views(val);
              orig := Consistent(el[i]);
            }
          } else {
            orig := Consistent(val);
          }
        }
      }
      EmptyConsistent();
      assert !Secure(rank) ==> orig == Present(db, key, rrtype) by {
        if key in db {
          NoView(db[key], i);
        }
      }
      assert i > 0 ==> el == OldSlots(db, key);
      hide *;
      if !Secure(rank) && orig.Some? && Fresh(orig.value, now) && rank <= orig.value.rank {
        return Exists;
      }
      if i == 0 {
        r := WriteOrClear(key, seq(len, _ => 0), outcome);
        return;
      }
      var ps := AsPieces(el)[i := Room(len)];
      var buf := new Byte[SerialSize(PieceLens(ps))];
      ListMemcpy(buf, ps);
      r := WriteOrClear(key, buf[..], outcome);
      if r.Ready? {
        r := Ready(Offset(PieceLens(ps), i));
      }
    }

    /** Every value is a packed list or an entry, as its key says. */
    ghost predicate Valid()
      reads this
    {
      forall k | k in db :: ValueOk(k.ktype, db[k])
    }

    constructor ()
      ensures Valid() && db == map[]
    {
      db := map[];
    }

    /** Stores an entry: room is spliced in for it, and the entry is written there. */
    method Stash(key: Key, rrtype: nat, e: Entry, now: nat, outcome: WriteOutcome) returns (r: SpliceResult)
      requires Valid() && key.ktype == KeyType(rrtype) && EntryOk(e)
      modifies this
      ensures Valid()
      ensures r == Exists <==> Refused(old(db), key, rrtype, e.h.rank, now)
      ensures r == Exists || r == Failed ==> db == old(db)
      ensures r == NoSpace ==> db == map[] && outcome == OutOfSpace
      ensures r != BadArgument
      ensures r.Ready? ==> Stored(old(db), db, key, rrtype, e)
    {
      hide Refused;
      hide EntryBytes;
      hide EntryOk;
      hide ValueOk;
      hide Stored;
      hide Spliced;
      EntryNonempty(e);
      ghost var db0 := db;
      var bytes := EntryBytes(e);
      r := Splice(key, rrtype, e.h.rank, |bytes|, now, outcome);
      if r.Ready? {
        var val := db[key];
        SpliceFits(db0, val, key, rrtype, |bytes|, r.off);
        var full := val[..r.off] + bytes + val[r.off + |bytes|..];
        FillStored(db0, val, full, key, rrtype, e, r.off);
        db := db[key := full];
        assert db == db0[key := full];
      }
    }

    /** Lists a chain of NSEC or NSEC3 records with the zone's entries. */
    method StashNsec(key: Key, params: seq<Byte>, until: nat, outcome: WriteOutcome) returns (written: bool)
      requires Valid() && key.ktype == TYPE_NS && IsParams(params) && until < 0x1_0000_0000
      modifies this
      ensures Valid()
      ensures written <==>
        && outcome == WriteOk && (key in old(db) ==> Parse(old(db)[key]).Parsed?)
        && !Skipped(SlotIn(old(db), key, 0), SlotIn(old(db), key, 1), params, until)
      ensures !written ==> db == old(db)
      ensures written ==> Listed(old(db), db, key, params, until)
    {
      hide Parse;
      hide View;
      hide Listed;
      hide IsPacked;
      hide Int32;
      hide Get32;
      var el: seq<seq<Byte>> := [[], [], [], [], []];
      var replaced := NSECS_CNT - 1;
      if key in db {
        var p := ListParse(db[key]);
        assert exists old_ :: IsPacked(db[key], old_);
        OldSlotView(db, key, 0);
        OldSlotView(db, key, 1);
        if !p.Parsed? {
          return false;
        }
        el := Views(db[key]);
        for i := 0 to NSECS_CNT
          invariant replaced == NSECS_CNT - 1
          invariant forall j | 0 <= j < i :: !SameChain(el[j], params)
        {
          if SameChain(el[i], params) {
            if Recent(el[i], params, until) {
              return false;
            }
            replaced := i;
            break;
          }
        }
      }
      var full := Assemble(Shifted(el, replaced), NsecSlot(params, until));
      if outcome != WriteOk {
        return false;
      }
      ListedStored(db, full, key, Shifted(el, replaced)[0 := NsecSlot(params, until)], replaced, params, until);
      db := db[key := full];
      return true;
    }
  }

  lemma FillStored(db: map<Key, seq<Byte>>, val: seq<Byte>, full: seq<Byte>, key: Key, rrtype: nat, e: Entry, off: nat)
    requires EntryOk(e) && key.ktype == KeyType(rrtype) && (key in db ==> ValueOk(key.ktype, db[key]))
    requires Spliced(db, val, key, rrtype, |EntryBytes(e)|, off) && off + |EntryBytes(e)| <= |val|
    requires full == val[..off] + EntryBytes(e) + val[off + |EntryBytes(e)|..]
    ensures ValueOk(key.ktype, full) && Stored(db, db[key := full], key, rrtype, e)
  {
    hide EntryBytes;
    hide EntryOk;
    hide Packed;
    hide IsList;
    hide Copied;
    hide HeadOk;
    var i, el, b := ListIndex(rrtype), OldSlots(db, key), EntryBytes(e);
    if i == 0 {
      assert full == b;
    } else {
      FilledPacked(val, full, el, i, b);
      OldSlotsList(db, key);
      ListWith(el, i, e);
      assert IsPacked(full, el[i := b]);
      StoredList(db, db[key := full], key, rrtype, e, el);
      hide Stored;
    }
  }

  ghost predicate ValueOk(ktype: nat, s: seq<Byte>) {
    if ktype == TYPE_NS then exists el :: IsPacked(s, el) else exists e: Entry :: EntryOk(e) && s == EntryBytes(e)
  }

  /** The bytes a reader finds in slot `i`, or none. */
  function SlotIn(db: map<Key, seq<Byte>>, key: Key, i: nat): seq<Byte> {
    if key in db then View(db[key], i) else []
  }

  /** The entry is found under its type, and everything else is found as before. */
  ghost predicate Stored(db: map<Key, seq<Byte>>, db': map<Key, seq<Byte>>, key: Key, rrtype: nat, e: Entry) {
    && key in db' && db' == db[key := db'[key]]
    && var i := ListIndex(rrtype);
      if i == 0 then EntryOk(e) && db'[key] == EntryBytes(e)
      else
        && HoldsEntry(SlotIn(db', key, i), e)
        && (forall j | 0 <= j < EL_LENGTH && j != i :: SlotIn(db', key, j) == SlotIn(db, key, j))
  }

  lemma SpliceFits(db: map<Key, seq<Byte>>, val: seq<Byte>, key: Key, rrtype: nat, len: nat, off: nat)
    requires Spliced(db, val, key, rrtype, len, off)
    ensures off + len <= |val|
  {
    var i := ListIndex(rrtype);
    if i > 0 {
      var lens := PieceLens(AsPieces(OldSlots(db, key))[i := Room(len)]);
      assert lens[i] == len;
      OffsetMono(lens, i, EL_LENGTH);
    }
  }

  lemma OldSlotView(db: map<Key, seq<Byte>>, key: Key, j: nat)
    requires j < EL_LENGTH && (key in db ==> exists el :: IsPacked(db[key], el))
    ensures OldSlots(db, key)[j] == SlotIn(db, key, j)
    ensures j >= NSECS_CNT ==> |OldSlots(db, key)[j]| % 2 == 0
  {
    if key in db {
      var el :| IsPacked(db[key], el);
      hide IsPacked;
      hide Parse;
      hide View;
      ViewPacked(db[key], el, j);
    }
  }

  lemma StoredList(db: map<Key, seq<Byte>>, db': map<Key, seq<Byte>>, key: Key, rrtype: nat, e: Entry, el: seq<seq<Byte>>)
    requires EntryOk(e) && ListIndex(rrtype) > 0 && key in db' && db' == db[key := db'[key]]
    requires el == OldSlots(db, key) && IsPacked(db'[key], el[ListIndex(rrtype) := EntryBytes(e)])
    requires key in db ==> exists old_ :: IsPacked(db[key], old_)
    ensures Stored(db, db', key, rrtype, e)
  {
    hide IsPacked;
    hide View;
    hide OldSlots;
    hide EntryBytes;
    hide EntryOk;
    var i := ListIndex(rrtype);
    var new_ := el[i := EntryBytes(e)];
    ViewPacked(db'[key], new_, i);
    forall j | 0 <= j < EL_LENGTH && j != i ensures SlotIn(db', key, j) == SlotIn(db, key, j) {
      OldSlotView(db, key, j);
      ViewPacked(db'[key], new_, j);
    }
  }

  lemma NoView(s: seq<Byte>, i: nat)
    ensures !Parse(s).Parsed? ==> View(s, i) == []
  {
  }

  lemma EmptyConsistent()
    ensures Consistent([]) == None
  {
  }

  // Reading an entry back

  /** An entry found by a reader has the header and the record sets that were stored, and nothing is left over. */
  lemma EntryRead(b: seq<Byte>, e: Entry)
    requires HoldsEntry(b, e)
    ensures GetHeader(b, 0) == e.h
    ensures e.RrEntry? ==>
      && Materialize(b, ENTRY_HEADER) == Materialized(e.rrs, |Dematerialized(e.rrs)|)
      && Materialize(b, ENTRY_HEADER + |Dematerialized(e.rrs)|) == Materialized(e.sigs, |Dematerialized(e.sigs)|)
      && |b| == ENTRY_HEADER + |Dematerialized(e.rrs)| + |Dematerialized(e.sigs)|
    ensures e.PacketEntry? ==> Get16(b, ENTRY_HEADER) == |e.wire| && Within(b, ENTRY_HEADER + 2, e.wire)
  {
    hide EntryBytes;
    hide PutHeader;
    hide GetHeader;
    hide Dematerialized;
    hide Materialize;
    hide Get16;
    assert Within(b, 0, EntryBytes(e));
    hide Within;
    EntryParts(b, 0, e);
    EntrySize(e);
    HeaderRoundTrip(b, 0, e.h);
    match e {
      case RrEntry(_, rrs, sigs) =>
        MaterializeRoundTrip(b, ENTRY_HEADER, rrs);
        MaterializeRoundTrip(b, ENTRY_HEADER + |Dematerialized(rrs)|, sigs);
      case PacketEntry(_, wire) =>
        Get16Put(b, ENTRY_HEADER, |wire|);
    }
  }

  /** A stored entry is found by looking for its type. */
  lemma StoredFound(db: map<Key, seq<Byte>>, db': map<Key, seq<Byte>>, key: Key, rrtype: nat, e: Entry)
    requires Stored(db, db', key, rrtype, e) && ListIndex(rrtype) > 0
    requires exists el :: IsPacked(db'[key], el)
    ensures var r := Seek(db'[key], rrtype); r.Found? && HoldsEntry(Slice(db'[key], r.slot), e)
  {
    var i := ListIndex(rrtype);
    var el :| IsPacked(db'[key], el);
    hide IsPacked;
    ViewAt(db'[key], el, i);
    hide Parse;
    assert HoldsEntry(View(db'[key], i), e);
    hide EntryBytes;
    EntryNonempty(e);
  }

  // What may replace what

  /** Once stored, an entry with a good rank is what a later write is measured against. */
  lemma StoredPresent(db: map<Key, seq<Byte>>, db': map<Key, seq<Byte>>, key: Key, rrtype: nat, e: Entry)
    requires Stored(db, db', key, rrtype, e) && RankOk(e.h.rank)
    requires RankState(e.h.rank) != RANK_BOGUS || e.h.isPacket
    requires e.h.isPacket || !e.h.hasOptout
    ensures Present(db', key, rrtype) == Some(e.h)
  {
    var i := ListIndex(rrtype);
    var b := if i == 0 then db'[key] else View(db'[key], i);
    assert HoldsEntry(b, e);
    hide View;
    hide EntryBytes;
    hide GetHeader;
    hide Get16;
    EntryRead(b, e);
    EntrySize(e);
  }

  /** One write to the cache: of an entry, or of the parameters of a zone's chain. */
  datatype Write =
    | Write(key: Key, rrtype: nat, e: Entry, now: nat, outcome: WriteOutcome)
    | NsecWrite(key: Key, params: seq<Byte>, until: nat, outcome: WriteOutcome)

  predicate Overflows(w: Write) {
    w.Write? && w.outcome == OutOfSpace
  }

  ghost predicate WellFormed(w: Write) {
    match w
    case Write(key, rrtype, e, _, _) => key.ktype == KeyType(rrtype) && EntryOk(e) && RankOk(e.h.rank)
    case NsecWrite(key, params, until, _) => key.ktype == TYPE_NS && IsParams(params) && until < 0x1_0000_0000
  }

  /** A write that does not touch the entry, or is not secure and comes while the entry is fresh and ranked as
      high. */
  ghost predicate Harmless(w: Write, key: Key, rrtype: nat, h: Header) {
    || w.NsecWrite? || w.key != key || ListIndex(w.rrtype) != ListIndex(rrtype)
    || (!Secure(w.e.h.rank) && Fresh(h, w.now) && w.e.h.rank <= h.rank)
  }

  /** Writes to the entry's own place are not secure and come while it is fresh. */
  ghost predicate Unsecured(w: Write, key: Key, rrtype: nat, h: Header) {
    w.Write? && w.key == key && ListIndex(w.rrtype) == ListIndex(rrtype) ==> !Secure(w.e.h.rank) && Fresh(h, w.now)
  }

  /** The bytes stored for a type. */
  function Content(db: map<Key, seq<Byte>>, key: Key, rrtype: nat): seq<Byte> {
    if ListIndex(rrtype) > 0 then SlotIn(db, key, ListIndex(rrtype)) else if key in db then db[key] else []
  }

  lemma ContentListed(db: map<Key, seq<Byte>>, db': map<Key, seq<Byte>>, w: Write, key: Key, rrtype: nat)
    requires w.NsecWrite? && WellFormed(w) && Listed(db, db', w.key, w.params, w.until) && key.ktype == KeyType(rrtype)
    ensures Content(db', key, rrtype) == Content(db, key, rrtype)
  {
    hide View;
    hide NsecSlot;
  }

  lemma ContentKept(db: map<Key, seq<Byte>>, db': map<Key, seq<Byte>>, w: Write, key: Key, rrtype: nat)
    requires w.Write? && Stored(db, db', w.key, w.rrtype, w.e) && w.key.ktype == KeyType(w.rrtype) && key.ktype == KeyType(rrtype)
    requires w.key != key || ListIndex(w.rrtype) != ListIndex(rrtype)
    ensures Content(db', key, rrtype) == Content(db, key, rrtype)
  {
    hide View;
    hide HoldsEntry;
    hide EntryBytes;
  }

  lemma ContentPresent(db: map<Key, seq<Byte>>, key: Key, rrtype: nat)
    ensures Present(db, key, rrtype) == Consistent(Content(db, key, rrtype))
  {
    EmptyConsistent();
    hide View;
  }

  /** Runs of writes, while the database does not overflow: an entry stays, byte for byte, as long as all that is
      written in its place is not secure, not ranked higher, and comes while it is fresh. */
  method Run(c: Cache, ws: seq<Write>, key: Key, rrtype: nat, ghost h: Header) returns (cleared: bool)
    requires c.Valid() && (forall i | 0 <= i < |ws| :: WellFormed(ws[i]) && Harmless(ws[i], key, rrtype, h))
    requires key.ktype == KeyType(rrtype) && Present(c.db, key, rrtype) == Some(h)
    modifies c
    ensures c.Valid()
    ensures !cleared ==> Content(c.db, key, rrtype) == Content(old(c.db), key, rrtype)
    ensures !cleared ==> Present(c.db, key, rrtype) == Some(h)
    ensures cleared ==> exists i | 0 <= i < |ws| :: Overflows(ws[i])
  {
    hide Present;
    hide Content;
    hide Harmless;
    hide WellFormed;
    cleared := false;
    ContentPresent(c.db, key, rrtype);
    for i := 0 to |ws|
      invariant c.Valid()
      invariant !cleared ==> Content(c.db, key, rrtype) == Content(old(c.db), key, rrtype)
      invariant cleared ==> exists j | 0 <= j < i :: Overflows(ws[j])
    {
      ContentPresent(c.db, key, rrtype);
      var lost := Apply(c, ws[i], key, rrtype, h);
      cleared := cleared || lost;
    }
    ContentPresent(c.db, key, rrtype);
  }

  method Apply(c: Cache, w: Write, key: Key, rrtype: nat, ghost h: Header) returns (cleared: bool)
    requires c.Valid() && WellFormed(w) && key.ktype == KeyType(rrtype)
    requires Harmless(w, key, rrtype, h)
    modifies c
    ensures c.Valid()
    ensures !cleared && Present(old(c.db), key, rrtype) == Some(h) ==>
      Content(c.db, key, rrtype) == Content(old(c.db), key, rrtype)
    ensures cleared ==> Overflows(w)
  {
    hide Present;
    hide Content;
    hide Harmless;
    hide EntryOk;
    hide Stored;
    hide Listed;
    hide Refused;
    hide Skipped;
    ghost var db := c.db;
    cleared := false;
    match w {
      case Write(k, t, e, now, outcome) =>
        var r := c.Stash(k, t, e, now, outcome);
        cleared := r == NoSpace;
        if r.Ready? && Present(db, key, rrtype) == Some(h) {
          HarmlessStored(db, w, key, rrtype, h);
          ContentKept(db, c.db, w, key, rrtype);
        }
      case NsecWrite(k, params, until, outcome) =>
        var written := c.StashNsec(k, params, until, outcome);
        if written {
          ContentListed(db, c.db, w, key, rrtype);
        }
    }
  }

  /** A write to the entry's own place would have been refused. */
  lemma HarmlessStored(db: map<Key, seq<Byte>>, w: Write, key: Key, rrtype: nat, h: Header)
    requires w.Write? && Harmless(w, key, rrtype, h) && Present(db, key, rrtype) == Some(h)
    requires w.key.ktype == KeyType(w.rrtype) && key.ktype == KeyType(rrtype)
    requires !Refused(db, w.key, w.rrtype, w.e.h.rank, w.now)
    ensures w.key != key || ListIndex(w.rrtype) != ListIndex(rrtype)
  {
    hide View;
    hide Consistent;
    hide Fresh;
  }

  /** Data that is not secure cannot displace a secure entry, authoritative or not. */
  lemma SecureStays(w: Write, key: Key, rrtype: nat, h: Header)
    requires RankOk(h.rank) && Secure(h.rank) && WellFormed(w) && Unsecured(w, key, rrtype, h)
    ensures Harmless(w, key, rrtype, h)
  {
    if w.Write? && !Secure(w.e.h.rank) {
      SecureOutranks(w.e.h.rank, h.rank);
    }
  }

  /** So a secure entry outlives every run of writes that puts no secure data in its place while it is fresh. */
  method RunSecure(c: Cache, ws: seq<Write>, key: Key, rrtype: nat, ghost h: Header) returns (cleared: bool)
    requires c.Valid() && (forall i | 0 <= i < |ws| :: WellFormed(ws[i]) && Unsecured(ws[i], key, rrtype, h))
    requires key.ktype == KeyType(rrtype) && Present(c.db, key, rrtype) == Some(h) && Secure(h.rank)
    modifies c
    ensures c.Valid()
    ensures !cleared ==> Content(c.db, key, rrtype) == Content(old(c.db), key, rrtype)
    ensures !cleared ==> Present(c.db, key, rrtype) == Some(h)
    ensures cleared ==> exists i | 0 <= i < |ws| :: Overflows(ws[i])
  {
    PresentRank(c.db, key, rrtype);
    hide Present;
    hide Content;
    hide Unsecured;
    hide Harmless;
    hide WellFormed;
    forall i | 0 <= i < |ws| ensures Harmless(ws[i], key, rrtype, h) {
      SecureStays(ws[i], key, rrtype, h);
    }
    cleared := Run(c, ws, key, rrtype, h);
  }

  lemma PresentRank(db: map<Key, seq<Byte>>, key: Key, rrtype: nat)
    ensures Present(db, key, rrtype).Some? ==> RankOk(Present(db, key, rrtype).value.rank)
  {
    hide View;
    hide GetHeader;
  }
}
