/** ID lists: searching, merging in place, and lists that keep their capacity in front of their length. */
module Midl {
  import opened MidlSort

  const UM_MAX: nat := 131071
  const ID_LIMIT: nat := 0x1_0000_0000_0000_0000

  /** The IDs of a list, without the slot that holds their number. */
  function Ids(s: seq<nat>): seq<nat>
    requires |s| > 0 && s[0] < |s|
  {
    s[1..s[0] + 1]
  }

  // Searching a descending list

  /** Position `x` splits the list: nothing before it is smaller than `id`, nothing from it on is larger. */
  ghost predicate SplitsAt(s: seq<nat>, n: int, id: nat, x: int)
    requires IsList(s, n)
  {
    && 1 <= x <= n + 1
    && (forall p | 1 <= p < x :: s[p] >= id)
    && (forall p | x <= p <= n :: s[p] <= id)
  }

  /** Binary search: the position of `id`, or where it would have to be inserted. */
  method Search(ids: array<nat>, id: nat) returns (cursor: nat)
    requires ids.Length > 0 && IsList(ids[..], ids[0]) && Descending(ids[..], ids[0])
    ensures SplitsAt(ids[..], ids[0], id, cursor)
    ensures id in Ids(ids[..]) <==> cursor <= ids[0] && ids[cursor] == id
  {
    var base := 0;
    cursor := 1;
    var val := 0;
    var n := ids[0];
    while 0 < n
      invariant 0 <= base && base + n <= ids[0]
      invariant forall p | 1 <= p <= base :: ids[p] > id
      invariant forall p | base + n < p <= ids[0] :: ids[p] < id
      invariant val == 0 ==> cursor == 1 && base == 0 && n == ids[0]
      invariant val > 0 ==> cursor == base >= 1
      invariant val < 0 ==> cursor == base + n + 1 <= ids[0]
      decreases n
    {
      var pivot := n / 2;
      cursor := base + pivot + 1;
      val := if ids[cursor] < id then -1 else if ids[cursor] > id then 1 else 0;
      if val < 0 {
        n := pivot;
      } else if val > 0 {
        base := cursor;
        n := n - (pivot + 1);
      } else {
        assert Ids(ids[..])[cursor - 1] == id;
        return;
      }
    }
    if val > 0 {
      cursor := cursor + 1;
    }
    ghost var list := Ids(ids[..]);
    assert forall p | 0 <= p < |list| :: list[p] != id;
  }

  /** Inserting at such a position keeps the list descending. */
  lemma InsertionKeepsOrder(s: seq<nat>, n: int, id: nat, x: int)
    requires IsList(s, n) && Descending(s, n) && SplitsAt(s, n, id, x)
    ensures Descending(s[..x] + [id] + s[x..], n + 1)
  {
    var t := s[..x] + [id] + s[x..];
    forall i, j | 1 <= i < j <= n + 1 ensures t[i] >= t[j] {
      assert i != x ==> t[i] == s[if i < x then i else i - 1];
      assert j != x ==> t[j] == s[if j < x then j else j - 1];
    }
  }

  // Merging one descending list into another, from the back and in place

  /** `i` IDs of `merge` and `j` of the old list are still to be placed, in slots 1..i+j; the slots behind
      hold the others, and nothing there is larger than an ID still to come. */
  ghost predicate Merging(t: seq<nat>, s: seq<nat>, merge: seq<nat>, i: nat, j: nat) {
    && Room(t, s, merge, i, j)
    && Unread(t, s, merge, j)
    && SettledTail(t, i + j, s[0] + merge[0])
    && (i > 0 ==> Tops(merge[i], t, i + j, s[0] + merge[0]))
    && (j > 0 ==> Tops(s[j], t, i + j, s[0] + merge[0]))
    && Gathered(t, s, merge, i, j)
  }

  ghost predicate Room(t: seq<nat>, s: seq<nat>, merge: seq<nat>, i: nat, j: nat) {
    && |s| > 0 && |merge| > 0 && s[0] + merge[0] < |s| == |t| && IsList(merge, merge[0])
    && i <= merge[0] && j <= s[0]
  }

  ghost predicate Unread(t: seq<nat>, s: seq<nat>, merge: seq<nat>, j: nat)
    requires Room(t, s, merge, 0, j)
  {
    && (forall x | 1 <= x <= j :: t[x] == s[x])
    && (forall x | s[0] + merge[0] < x < |s| :: t[x] == s[x])
  }

  ghost predicate Gathered(t: seq<nat>, s: seq<nat>, merge: seq<nat>, i: nat, j: nat)
    requires Room(t, s, merge, i, j)
  {
    multiset(t[i + j + 1..s[0] + merge[0] + 1])
    == multiset(s[j + 1..s[0] + 1]) + multiset(merge[i + 1..merge[0] + 1])
  }

  ghost predicate SettledTail(t: seq<nat>, k: int, total: int)
    requires 0 <= k <= total < |t|
  {
    forall x, y | k < x < y <= total :: t[x] >= t[y]
  }

  ghost predicate Tops(id: nat, t: seq<nat>, k: int, total: int)
    requires 0 <= k <= total < |t|
  {
    forall x | k < x <= total :: id >= t[x]
  }

  lemma MergeStart(s: seq<nat>, t: seq<nat>, merge: seq<nat>)
    requires |s| > 0 && |merge| > 0 && s[0] + merge[0] < |s| && IsList(merge, merge[0])
    requires |t| == |s| && forall x | 1 <= x < |s| :: t[x] == s[x]
    ensures Merging(t, s, merge, merge[0], s[0])
  {
  }

  /** One ID goes into slot `k`; the tail grows by it. */
  lemma TailGrows(t: seq<nat>, t': seq<nat>, k: int, total: int, id: nat)
    requires 0 < k <= total < |t| && t' == t[k := id]
    requires SettledTail(t, k, total) && Tops(id, t, k, total)
    ensures SettledTail(t', k - 1, total)
  {
  }

  lemma TopsGrows(t: seq<nat>, t': seq<nat>, k: int, total: int, id: nat, x: nat)
    requires 0 < k <= total < |t| && t' == t[k := id] && x >= id && Tops(id, t, k, total)
    ensures Tops(x, t', k - 1, total)
  {
  }

  lemma GatherOld(t: seq<nat>, t': seq<nat>, s: seq<nat>, merge: seq<nat>, i: nat, j: nat)
    requires Room(t, s, merge, i, j) && Gathered(t, s, merge, i, j) && i > 0 && j > 0
    requires t' == t[i + j := s[j]]
    ensures Gathered(t', s, merge, i, j - 1)
  {
    var total := s[0] + merge[0];
    assert t'[i + j..total + 1] == [s[j]] + t[i + j + 1..total + 1];
    assert s[j..s[0] + 1] == [s[j]] + s[j + 1..s[0] + 1];
  }

  lemma GatherNew(t: seq<nat>, t': seq<nat>, s: seq<nat>, merge: seq<nat>, i: nat, j: nat)
    requires Room(t, s, merge, i, j) && Gathered(t, s, merge, i, j) && i > 0
    requires t' == t[i + j := merge[i]]
    ensures Gathered(t', s, merge, i - 1, j)
  {
    var total := s[0] + merge[0];
    assert t'[i + j..total + 1] == [merge[i]] + t[i + j + 1..total + 1];
    assert merge[i..merge[0] + 1] == [merge[i]] + merge[i + 1..merge[0] + 1];
  }

  lemma MergeOld(t: seq<nat>, t': seq<nat>, s: seq<nat>, merge: seq<nat>, i: nat, j: nat)
    requires Merging(t, s, merge, i, j) && i > 0 && j > 0 && s[j] < merge[i] && Descending(s, s[0])
    requires t' == t[i + j := s[j]]
    ensures Merging(t', s, merge, i, j - 1)
  {
    var total := s[0] + merge[0];
    GatherOld(t, t', s, merge, i, j);
    TailGrows(t, t', i + j, total, s[j]);
    TopsGrows(t, t', i + j, total, s[j], merge[i]);
    if j > 1 {
      TopsGrows(t, t', i + j, total, s[j], s[j - 1]);
    }
    hide Gathered;
    hide Tops;
    hide SettledTail;
  }

  lemma MergeNew(t: seq<nat>, t': seq<nat>, s: seq<nat>, merge: seq<nat>, i: nat, j: nat)
    requires Merging(t, s, merge, i, j) && i > 0 && (j > 0 ==> s[j] >= merge[i]) && Descending(merge, merge[0])
    requires t' == t[i + j := merge[i]]
    ensures Merging(t', s, merge, i - 1, j)
  {
    var total := s[0] + merge[0];
    GatherNew(t, t', s, merge, i, j);
    TailGrows(t, t', i + j, total, merge[i]);
    if j > 0 {
      TopsGrows(t, t', i + j, total, merge[i], s[j]);
    }
    if i > 1 {
      TopsGrows(t, t', i + j, total, merge[i], merge[i - 1]);
    }
    hide Gathered;
    hide Tops;
    hide SettledTail;
  }

  lemma MergedOrder(t: seq<nat>, s: seq<nat>, merge: seq<nat>, j: nat)
    requires Room(t, s, merge, 0, j) && Unread(t, s, merge, j) && Descending(s, s[0])
    requires SettledTail(t, j, s[0] + merge[0]) && (j > 0 ==> Tops(s[j], t, j, s[0] + merge[0]))
    ensures Descending(t, s[0] + merge[0])
  {
    forall x, y | 1 <= x < y <= s[0] + merge[0] ensures t[x] >= t[y] {
      if x <= j < y {
        assert s[x] >= s[j] >= t[y];
      }
    }
  }

  lemma MergedContents(t: seq<nat>, s: seq<nat>, merge: seq<nat>, j: nat)
    requires Room(t, s, merge, 0, j) && Unread(t, s, merge, j) && Gathered(t, s, merge, 0, j)
    ensures var total := s[0] + merge[0];
      && multiset(t[1..total + 1]) == multiset(s[1..s[0] + 1]) + multiset(merge[1..merge[0] + 1])
      && t[total + 1..] == s[total + 1..]
  {
    var total := s[0] + merge[0];
    assert t[1..j + 1] == s[1..j + 1];
    assert t[1..total + 1] == t[1..j + 1] + t[j + 1..total + 1];
    assert s[1..s[0] + 1] == s[1..j + 1] + s[j + 1..s[0] + 1];
  }

  lemma MergeHead(t: seq<nat>, s: seq<nat>, merge: seq<nat>, j: nat, total: nat)
    requires Merging(t, s, merge, 0, j)
    ensures Merging(t[0 := total], s, merge, 0, j)
  {
    assert t[0 := total][j + 1..s[0] + merge[0] + 1] == t[j + 1..s[0] + merge[0] + 1];
  }

  lemma MergeEnd(t: seq<nat>, t': seq<nat>, s: seq<nat>, merge: seq<nat>, j: nat)
    requires Merging(t, s, merge, 0, j) && Descending(s, s[0]) && t' == t[0 := s[0] + merge[0]]
    ensures |t'| == |s| && Descending(t', t'[0]) && t'[t'[0] + 1..] == s[t'[0] + 1..]
    ensures multiset(Ids(t')) == multiset(Ids(s)) + multiset(Ids(merge))
  {
    hide Unread;
    hide SettledTail;
    hide Tops;
    hide Gathered;
    hide Descending;
    MergeHead(t, s, merge, j, s[0] + merge[0]);
    MergedOrder(t', s, merge, j);
    MergedContents(t', s, merge, j);
  }

  /** Moves the old IDs that are smaller than the next merged one; the sentinel in slot 0 ends the scan. */
  method ShiftSmaller(idl: array<nat>, ghost s: seq<nat>, ghost g: seq<nat>, ghost i: nat,
                      j0: nat, k0: nat, id: nat, mergeId: nat) returns (j: nat, k: nat, oldId: nat)
    requires Merging(idl[..], s, g, i, j0) && Descending(s, s[0])
    requires 0 < i && mergeId == g[i] < ID_LIMIT && k0 == i + j0
    requires idl[0] == ID_LIMIT - 1 && id == idl[j0]
    modifies idl
    ensures Merging(idl[..], s, g, i, j) && k == i + j
    ensures idl[0] == ID_LIMIT - 1 && oldId == idl[j] && oldId >= mergeId
  {
    j, k, oldId := j0, k0, id;
    hide Merging;
    hide Descending;
    MergeReads(idl[..], s, g, i, j);
    while oldId < mergeId
      invariant 0 <= j <= s[0] && k == i + j && idl.Length == |s|
      invariant Merging(idl[..], s, g, i, j) && idl[0] == ID_LIMIT - 1 && oldId == idl[j]
      decreases j
    {
      ghost var t := idl[..];
      MergeReads(t, s, g, i, j);
      idl[k] := oldId;
      k := k - 1;
      MergeOld(t, idl[..], s, g, i, j);
      j := j - 1;
      oldId := idl[j];
    }
  }

  method XMerge(idl: array<nat>, merge: array<nat>)
    requires idl != merge && idl.Length > 0 && merge.Length > 0
    requires IsList(merge[..], merge[0]) && Descending(merge[..], merge[0])
    requires idl[0] + merge[0] < idl.Length && Descending(idl[..], idl[0])
    requires forall x | 0 <= x < merge.Length :: merge[x] < ID_LIMIT
    modifies idl
    ensures idl[0] == old(idl[0]) + merge[0]
    ensures Descending(idl[..], idl[0])
    ensures multiset(Ids(idl[..])) == multiset(old(Ids(idl[..]))) + multiset(Ids(merge[..]))
    ensures idl[idl[0] + 1..] == old(idl[idl[0] + merge[0] + 1..])
  {
    hide Merging;
    hide Descending;
    hide Ids;
    ghost var s, g := idl[..], merge[..];
    var i, j := merge[0], idl[0];
    var k := i + j;
    var total := k;
    idl[0] := ID_LIMIT - 1;
    MergeStart(s, idl[..], g);
    var oldId := idl[j];
    while i > 0
      invariant 0 <= i <= g[0] && 0 <= j <= s[0] && k == i + j && idl.Length == |s|
      invariant Merging(idl[..], s, g, i, j) && idl[0] == ID_LIMIT - 1 && oldId == idl[j]
    {
      var mergeId := merge[i];
      i := i - 1;
      j, k, oldId := ShiftSmaller(idl, s, g, i + 1, j, k, oldId, mergeId);
      ghost var t := idl[..];
      MergeReads(t, s, g, i + 1, j);
      idl[k] := mergeId;
      k := k - 1;
      MergeNew(t, idl[..], s, g, i + 1, j);
    }
    ghost var t := idl[..];
    idl[0] := total;
    MergeEnd(t, idl[..], s, g, j);
  }

  lemma MergeReads(t: seq<nat>, s: seq<nat>, merge: seq<nat>, i: nat, j: nat)
    requires Merging(t, s, merge, i, j)
    ensures 0 < |s| && s[0] + merge[0] < |s| == |t| && j <= s[0] && i <= merge[0] < |merge|
    ensures j > 0 ==> t[j] == s[j]
  {
  }

  // Lists of (ID, pointer) pairs, ascending and without duplicates

  datatype Id2 = Id2(mid: nat, mptr: nat)

  ghost predicate Ascending(s: seq<Id2>, n: int)
    requires 0 <= n < |s|
  {
    forall i, j | 1 <= i < j <= n :: s[i].mid < s[j].mid
  }

  ghost predicate Id2Splits(s: seq<Id2>, n: int, id: nat, x: int)
    requires 0 <= n < |s|
  {
    && 1 <= x <= n + 1
    && (forall p | 1 <= p < x :: s[p].mid < id)
    && (forall p | x <= p <= n :: s[p].mid >= id)
  }

  method Id2Search(ids: array<Id2>, id: nat) returns (cursor: nat)
    requires ids.Length > 0 && ids[0].mid < ids.Length && Ascending(ids[..], ids[0].mid)
    ensures Id2Splits(ids[..], ids[0].mid, id, cursor)
  {
    var base := 0;
    cursor := 1;
    var val := 0;
    var n := ids[0].mid;
    ghost var s, len := ids[..], ids[0].mid;
    while 0 < n
      invariant 0 <= base && base + n <= len
      invariant forall p | 1 <= p <= base :: s[p].mid < id
      invariant forall p | base + n < p <= len :: s[p].mid > id
      invariant val == 0 ==> cursor == 1 && base == 0 && n == len
      invariant val > 0 ==> cursor == base >= 1
      invariant val < 0 ==> cursor == base + n + 1 <= len
      decreases n
    {
      var pivot := n / 2;
      cursor := base + pivot + 1;
      val := if id < ids[cursor].mid then -1 else if id > ids[cursor].mid then 1 else 0;
      if val < 0 {
        n := pivot;
      } else if val > 0 {
        base := cursor;
        n := n - (pivot + 1);
      } else {
        return;
      }
    }
    if val > 0 {
      cursor := cursor + 1;
    }
  }

  datatype InsertResult = Inserted | Duplicate | TooBig

  /** The pairs of a list, without the slot that holds its length. */
  function Pairs(s: seq<Id2>): seq<Id2>
    requires |s| > 0 && s[0].mid < |s|
  {
    s[1..s[0].mid + 1]
  }

  ghost predicate HasId(s: seq<Id2>, id: nat) {
    exists p | 0 <= p < |s| :: s[p].mid == id
  }

  /** Moves the pairs from position `x` on one slot up. */
  method MakeRoom(ids: array<Id2>, x: nat)
    requires ids.Length > 0 && 1 <= x <= ids[0].mid + 1 < ids.Length
    modifies ids
    ensures ids[0] == old(ids[0]).(mid := old(ids[0]).mid + 1)
    ensures forall p | 1 <= p < x :: ids[p] == old(ids[p])
    ensures forall p | x < p <= old(ids[0]).mid + 1 :: ids[p] == old(ids[p - 1])
  {
    ghost var s, n := ids[..], ids[0].mid;
    ids[0] := ids[0].(mid := ids[0].mid + 1);
    var i := ids[0].mid;
    while i > x
      invariant x <= i <= n + 1 && ids[0] == s[0].(mid := n + 1)
      invariant forall p | 1 <= p <= i && p <= n :: ids[p] == s[p]
      invariant forall p | i < p <= n + 1 :: ids[p] == s[p - 1]
    {
      ids[i] := ids[i - 1];
      i := i - 1;
    }
  }

  /** Inserts a pair at its place: a duplicate is refused first, then a full list. */
  method Id2Insert(ids: array<Id2>, id: Id2) returns (r: InsertResult)
    requires ids.Length > UM_MAX && ids[0].mid <= UM_MAX && Ascending(ids[..], ids[0].mid)
    modifies ids
    ensures ids[0].mid <= UM_MAX && Ascending(ids[..], ids[0].mid)
    ensures r.Duplicate? <==> HasId(old(Pairs(ids[..])), id.mid)
    ensures r.TooBig? <==> !HasId(old(Pairs(ids[..])), id.mid) && old(ids[0].mid) == UM_MAX
    ensures !r.Inserted? ==> ids[..] == old(ids[..])
    ensures r.Inserted? ==> exists x ::
      && 0 <= x <= old(ids[0].mid)
      && Pairs(ids[..]) == old(Pairs(ids[..]))[..x] + [id] + old(Pairs(ids[..]))[x..]
  {
    ghost var s := ids[..];
    ghost var n := ids[0].mid;
    var x := Id2Search(ids, id.mid);
    assert x >= 1;
    if x <= ids[0].mid && ids[x].mid == id.mid {
      assert Pairs(s)[x - 1].mid == id.mid;
      return Duplicate;
    }
    SplitMisses(s, n, id.mid, x);
    if ids[0].mid >= UM_MAX {
      return TooBig;
    }
    MakeRoom(ids, x);
    ids[x] := id;
    PairsInserted(s, ids[..], n, id, x);
    return Inserted;
  }

  lemma SplitMisses(s: seq<Id2>, n: int, id: nat, x: int)
    requires |s| > 0 && n == s[0].mid < |s| && Ascending(s, n) && Id2Splits(s, n, id, x)
    requires !(x <= n && s[x].mid == id)
    ensures !HasId(Pairs(s), id)
  {
    forall p | 0 <= p < |Pairs(s)| ensures Pairs(s)[p].mid != id {
      assert Pairs(s)[p] == s[p + 1];
      if p + 1 > x {
        assert s[x].mid < s[p + 1].mid;
      }
    }
  }

  lemma PairsInserted(s: seq<Id2>, t: seq<Id2>, n: int, id: Id2, x: int)
    requires |s| > 0 && n == s[0].mid && n + 1 < |s| == |t| && Ascending(s, n) && Id2Splits(s, n, id.mid, x)
    requires x <= n ==> s[x].mid != id.mid
    requires t[0].mid == n + 1 && t[x] == id
    requires forall p | 1 <= p < x :: t[p] == s[p]
    requires forall p | x < p <= n + 1 :: t[p] == s[p - 1]
    ensures Ascending(t, n + 1)
    ensures Pairs(t) == Pairs(s)[..x - 1] + [id] + Pairs(s)[x - 1..]
  {
    forall i, j | 1 <= i < j <= n + 1 ensures t[i].mid < t[j].mid {
      if j > x {
        assert t[j] == s[j - 1];
        if i == x {
          assert j - 1 == x || s[x].mid < s[j - 1].mid;
        }
      }
    }
    assert Pairs(t) == Pairs(s)[..x - 1] + [id] + Pairs(s)[x - 1..];
  }

  // Lists that know their capacity

  /** `n | UM_MAX`, the low 17 bits set. */
  function OrUmMax(n: nat): nat {
    n - n % (UM_MAX + 1) + UM_MAX
  }

  /** The words asked for when a list needs `n` IDs: a quarter more, rounded to a multiple of 256. */
  function NeedWords(n: nat): nat {
    (n + n / 4 + 258) / 256 * 256
  }

  /** `n` consecutive IDs from `id` on, the largest first. */
  function Downward(id: nat, n: nat): (r: seq<nat>) {
    seq(n, k requires 0 <= k < n => (id + n - 1 - k) % ID_LIMIT)
  }

  class IdList {
    /** The allocated words: slot 0 is the capacity, slot 1 the length, the IDs follow. */
    var mem: array<nat>

    ghost predicate Valid()
      reads this, mem
    {
      mem.Length >= 2 && mem[0] == mem.Length - 2 && mem[1] <= mem[0]
    }

    ghost function Contents(): (s: seq<nat>)
      reads this, mem
      requires Valid()
    {
      mem[2..2 + mem[1]]
    }

    constructor (num: nat)
      ensures Valid() && fresh(mem) && Contents() == [] && mem[0] == num
    {
      var ids := new nat[num + 2];
      ids[0] := num;
      ids[1] := 0;
      mem := ids;
    }

    /** The words of the list in a block of another size. */
    method Realloc(words: nat)
      requires Valid() && words >= mem[1] + 2
      modifies this
      ensures fresh(mem) && mem.Length == words && mem[1] == old(mem[1])
      ensures mem[2..2 + mem[1]] == old(Contents())
    {
      var block := new nat[words];
      ghost var s := mem[..];
      var k := 0;
      while k < words && k < mem.Length
        invariant 0 <= k <= words && k <= mem.Length && mem == old(mem) && mem[..] == s
        invariant forall x | 0 <= x < k :: block[x] == s[x]
      {
        block[k] := mem[k];
        k := k + 1;
      }
      assert block[2..2 + block[1]] == s[2..2 + s[1]];
      mem := block;
    }

    /** `ok` is whether the allocator has the memory. */
    method Grow(num: nat, ok: bool) returns (done: bool)
      requires Valid()
      modifies this
      ensures Valid() && Contents() == old(Contents()) && done == ok
      ensures mem[0] == old(mem[0]) + if ok then num else 0
      ensures if ok then fresh(mem) else mem == old(mem)
    {
      if !ok {
        return false;
      }
      var capacity := mem[0];
      Realloc(capacity + num + 2);
      mem[0] := capacity + num;
      assert mem[2..2 + mem[1]] == old(Contents());
      return true;
    }

    /** Makes sure that `num` more IDs fit. */
    method Need(num: nat, ok: bool) returns (done: bool)
      requires Valid()
      requires var n := mem[1] + num; n + n / 4 + 258 < 0x1_0000_0000
      modifies this
      ensures Valid() && Contents() == old(Contents())
      ensures done <==> ok || |Contents()| + num <= old(mem[0])
      ensures done ==> |Contents()| + num <= mem[0]
      ensures !done ==> mem == old(mem)
    {
      var n := num + mem[1];
      if n > mem[0] {
        var words := NeedWords(n);
        if !ok {
          return false;
        }
        Realloc(words);
        mem[0] := words - 2;
        assert mem[2..2 + mem[1]] == old(Contents());
      }
      return true;
    }

    method Append(id: nat, ok: bool) returns (done: bool)
      requires Valid()
      modifies this, mem
      ensures Valid() && (mem == old(mem) || fresh(mem))
      ensures done <==> ok || old(mem[1]) < old(mem[0])
      ensures Contents() == old(Contents()) + if done then [id] else []
    {
      if mem[1] >= mem[0] {
        var grown := Grow(UM_MAX, ok);
        if !grown {
          return false;
        }
      }
      ghost var s := Contents();
      mem[1] := mem[1] + 1;
      mem[1 + mem[1]] := id;
      assert mem[2..2 + mem[1]] == s + [id];
      return true;
    }

    method AppendList(app: array<nat>, ok: bool) returns (done: bool)
      requires Valid() && app != mem && app.Length > 0 && app[0] < app.Length
      modifies this, mem
      ensures Valid() && (mem == old(mem) || fresh(mem))
      ensures done <==> ok || old(mem[1]) + app[0] < old(mem[0])
      ensures Contents() == old(Contents()) + if done then app[1..app[0] + 1] else []
    {
      if mem[1] + app[0] >= mem[0] {
        var grown := Grow(app[0], ok);
        if !grown {
          return false;
        }
      }
      CopyIds(mem, 2 + mem[1], app, 1, app[0]);
      mem[1] := mem[1] + app[0];
      assert mem[2..2 + mem[1]] == old(Contents()) + app[1..app[0] + 1];
      return true;
    }

    method AppendRange(id: nat, n: nat, ok: bool) returns (done: bool)
      requires Valid()
      modifies this, mem
      ensures Valid() && (mem == old(mem) || fresh(mem))
      ensures done <==> ok || old(mem[1]) + n <= old(mem[0])
      ensures Contents() == old(Contents()) + if done then Downward(id, n) else []
    {
      var len := mem[1];
      if len + n > mem[0] {
        var grown := Grow(OrUmMax(n), ok);
        if !grown {
          return false;
        }
      }
      mem[1] := len + n;
      WriteRange(mem, 1 + len, id, n);
      hide Downward;
      assert |Downward(id, n)| == n by { DownwardLength(id, n); }
      assert mem[2..2 + mem[1]] == old(Contents()) + Downward(id, n);
      return true;
    }
  }

  lemma DownwardLength(id: nat, n: nat)
    ensures |Downward(id, n)| == n
  {
  }

  lemma DownwardStep(id: nat, n: nat)
    ensures Downward(id, n + 1) == [(id + n) % ID_LIMIT] + Downward(id, n)
  {
    assert forall k | 0 <= k < n :: Downward(id, n + 1)[1..][k] == Downward(id, n)[k];
  }

  /** An appended range is strictly descending exactly when the ID counter does not wrap around. */
  lemma RangeDescends(id: nat, n: nat)
    requires id < ID_LIMIT
    ensures (forall i, j | 0 <= i < j < n :: Downward(id, n)[i] > Downward(id, n)[j]) <==> id + n <= ID_LIMIT
  {
    var r := Downward(id, n);
    if id + n <= ID_LIMIT {
      assert forall i | 0 <= i < n :: r[i] == id + n - 1 - i;
    } else {
      var m := ID_LIMIT - id;
      assert r[n - 1 - m] == (id + m) % ID_LIMIT == 0;
      assert r[n - m] == (id + m - 1) % ID_LIMIT;
    }
  }

  lemma NextId(id: nat)
    ensures (id % ID_LIMIT + 1) % ID_LIMIT == (id + 1) % ID_LIMIT
  {
  }

  /** Writes `n` consecutive IDs behind slot `at`, the first one last. */
  method WriteRange(mem: array<nat>, at: nat, first: nat, n: nat)
    requires at + n < mem.Length
    modifies mem
    ensures mem[..] == old(mem[..at + 1]) + Downward(first, n) + old(mem[at + 1 + n..])
  {
    ghost var s := mem[..];
    var k, id := n, first % ID_LIMIT;
    while k > 0
      invariant 0 <= k <= n && id == (first + (n - k)) % ID_LIMIT
      invariant mem[..] == s[..at + 1 + k] + Downward(first, n - k) + s[at + 1 + n..]
    {
      hide Downward;
      DownwardStep(first, n - k);
      NextId(first + (n - k));
      mem[at + k] := id;
      k := k - 1;
      id := (id + 1) % ID_LIMIT;
    }
  }

  method CopyIds(dst: array<nat>, at: nat, src: array<nat>, from: nat, n: nat)
    requires dst != src && at + n <= dst.Length && from + n <= src.Length
    modifies dst
    ensures dst[..] == old(dst[..at]) + src[from..from + n] + old(dst[at + n..])
  {
    ghost var s, g := dst[..], src[..];
    var k := 0;
    while k < n
      invariant 0 <= k <= n && src[..] == g
      invariant dst[..] == s[..at] + g[from..from + k] + s[at + k..]
    {
      dst[at + k] := src[from + k];
      k := k + 1;
    }
  }
}
