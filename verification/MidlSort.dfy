/** Sorting an ID list in place, in descending order: quicksort with an explicit stack of intervals,
    and insertion sort for short intervals. */
module MidlSort {

  /** Slot 0 of a list is its length, the IDs are in slots 1 and up. */
  ghost predicate IsList(s: seq<nat>, n: int) {
    0 <= n < |s|
  }

  ghost predicate Descending(s: seq<nat>, n: int)
    requires IsList(s, n)
  {
    forall i, j | 1 <= i < j <= n :: s[i] >= s[j]
  }

  /** Everything up to `p` is at least everything behind it. */
  ghost predicate Cut(s: seq<nat>, n: int, p: int)
    requires IsList(s, n)
  {
    forall i, j | 1 <= i <= p < j <= n :: s[i] >= s[j]
  }

  /** Same elements, same cuts, and nothing outside [l..r] moved. */
  ghost predicate Shuffled(s: seq<nat>, t: seq<nat>, n: int, l: int, r: int) {
    && IsList(s, n) && |t| == |s|
    && multiset(t) == multiset(s)
    && (forall i | 0 <= i < |s| && !(l <= i <= r) :: t[i] == s[i])
    && (forall p | !(l <= p < r) && Cut(s, n, p) :: Cut(t, n, p))
  }

  lemma ShuffledRefl(s: seq<nat>, n: int, l: int, r: int)
    requires IsList(s, n)
    ensures Shuffled(s, s, n, l, r)
  {
  }

  lemma ShuffledThen(s: seq<nat>, t: seq<nat>, u: seq<nat>, n: int, l: int, r: int)
    requires Shuffled(s, t, n, l, r) && Shuffled(t, u, n, l, r)
    ensures Shuffled(s, u, n, l, r)
  {
  }

  /** Exchanging two elements of an interval. */
  lemma SwapShuffles(s: seq<nat>, n: int, l: int, r: int, i: int, j: int)
    requires IsList(s, n) && 1 <= l <= i <= r <= n && l <= j <= r
    ensures Shuffled(s, s[i := s[j]][j := s[i]], n, l, r)
  {
    var t := s[i := s[j]][j := s[i]];
    SwapPerm(s, i, j);
    forall p | !(l <= p < r) && Cut(s, n, p) ensures Cut(t, n, p) {
      forall x, y | 1 <= x <= p < y <= n ensures t[x] >= t[y] {
        var x' := if x == i then j else if x == j then i else x;
        var y' := if y == i then j else if y == j then i else y;
        assert t[x] == s[x'] && t[y] == s[y'];
        assert 1 <= x' <= p < y' <= n;
      }
    }
  }

  lemma SwapPerm(s: seq<nat>, i: int, j: int)
    requires 0 <= i < |s| && 0 <= j < |s|
    ensures multiset(s[i := s[j]][j := s[i]]) == multiset(s)
  {
  }

  method Swap(ids: array<nat>, ghost n: int, ghost l: int, ghost r: int, i: int, j: int)
    requires IsList(ids[..], n) && 1 <= l <= i <= r <= n && l <= j <= r
    modifies ids
    ensures ids[..] == old(ids[..])[i := old(ids[j])][j := old(ids[i])]
    ensures Shuffled(old(ids[..]), ids[..], n, l, r)
  {
    SwapShuffles(ids[..], n, l, r, i, j);
    ids[i], ids[j] := ids[j], ids[i];
    assert ids[..] == old(ids[..])[i := old(ids[j])][j := old(ids[i])];
  }

  ghost predicate DescendingIn(s: seq<nat>, l: int, r: int)
    requires 0 <= l && r < |s|
  {
    forall x, y | l <= x < y <= r :: s[x] >= s[y]
  }

  /** A descending run l..j whose slot `h` is still to be placed; everything behind it is smaller. */
  ghost predicate Holed(s: seq<nat>, v: seq<nat>, n: int, l: int, j: int, h: int) {
    IsList(s, n) && |v| == |s| && Shuffled(s, v, n, l, j) && 1 <= l <= h <= j <= n && Gapped(v, l, j, h)
  }

  ghost predicate Gapped(v: seq<nat>, l: int, j: int, h: int)
    requires 0 <= l <= h <= j < |v|
  {
    && (forall x, y | l <= x < y <= j && x != h && y != h :: v[x] >= v[y])
    && (forall y | h < y <= j :: v[y] < v[h])
  }

  lemma GapMoves(v: seq<nat>, w: seq<nat>, l: int, j: int, h: int)
    requires 0 <= l < h <= j < |v| && Gapped(v, l, j, h) && v[h - 1] < v[h]
    requires w == v[h := v[h - 1]][h - 1 := v[h]]
    ensures Gapped(w, l, j, h - 1)
  {
    forall x, y | l <= x < y <= j && x != h - 1 && y != h - 1 ensures w[x] >= w[y] {
      var x' := if x == h then h - 1 else x;
      var y' := if y == h then h - 1 else y;
      assert w[x] == v[x'] && w[y] == v[y'] && x' < y';
    }
  }

  lemma HoleStart(s: seq<nat>, n: int, l: int, j: int)
    requires IsList(s, n) && 1 <= l < j <= n && DescendingIn(s, l, j - 1)
    ensures Holed(s, s, n, l, j, j)
  {
    ShuffledRefl(s, n, l, j);
  }

  /** A hole at the front of its run cannot be beaten by the element before the run. */
  lemma HoleStops(s: seq<nat>, v: seq<nat>, n: int, l: int, j: int, h: int)
    requires Holed(s, v, n, l, j, h) && Cut(s, n, l - 1)
    requires h == 1 || v[h - 1] < v[h]
    ensures h == 1 || h > l
  {
    assert Cut(v, n, l - 1);
  }

  lemma HoleStep(s: seq<nat>, v: seq<nat>, n: int, l: int, j: int, h: int)
    requires Holed(s, v, n, l, j, h) && l < h && v[h - 1] < v[h]
    ensures Holed(s, v[h := v[h - 1]][h - 1 := v[h]], n, l, j, h - 1)
  {
    hide Gapped;
    hide Shuffled;
    hide Cut;
    var w := v[h := v[h - 1]][h - 1 := v[h]];
    SwapShuffles(v, n, l, j, h, h - 1);
    ShuffledThen(s, v, w, n, l, j);
    GapMoves(v, w, l, j, h);
  }

  lemma HoleDone(s: seq<nat>, v: seq<nat>, n: int, l: int, j: int, h: int)
    requires Holed(s, v, n, l, j, h) && (h == l || v[h - 1] >= v[h])
    ensures DescendingIn(v, l, j)
  {
    forall x, y | l <= x < y <= j ensures v[x] >= v[y] {
      if y == h {
        assert v[x] >= v[h - 1];
      }
    }
  }

  /** One step of the scan, in terms of the array `d` whose slot i+1 is the hole. */
  lemma HoleNext(s: seq<nat>, d: seq<nat>, n: int, l: int, j: int, i: int, a: nat)
    requires |d| == |s| && IsList(s, n) && 1 <= i < j <= n && d[i] < a
    requires Holed(s, d[i + 1 := a], n, l, j, i + 1) && Cut(s, n, l - 1)
    ensures l <= i && Holed(s, d[i + 1 := d[i]][i := a], n, l, j, i)
  {
    hide Gapped;
    hide Shuffled;
    hide Cut;
    var v := d[i + 1 := a];
    HoleStops(s, v, n, l, j, i + 1);
    HoleStep(s, v, n, l, j, i + 1);
    assert v[i + 1 := v[i]][i := v[i + 1]] == d[i + 1 := d[i]][i := a];
  }

  lemma HoleFilled(s: seq<nat>, d: seq<nat>, n: int, l: int, j: int, i: int, a: nat)
    requires |d| == |s| && IsList(s, n) && 0 <= i < j <= n && (i == 0 || d[i] >= a)
    requires Holed(s, d[i + 1 := a], n, l, j, i + 1)
    ensures Shuffled(s, d[i + 1 := a], n, l, j) && DescendingIn(d[i + 1 := a], l, j)
  {
    HoleDone(s, d[i + 1 := a], n, l, j, i + 1);
  }

  /** Inserts slot `j` into the descending run l..j-1.  The scan is bounded by slot 1 only, yet it never
      passes `l`, because everything before `l` is at least as large. */
  method Insert(ids: array<nat>, ghost n: int, ghost l: int, j: int)
    requires IsList(ids[..], n) && 1 <= l < j <= n
    requires Cut(ids[..], n, l - 1) && DescendingIn(ids[..], l, j - 1)
    modifies ids
    ensures Shuffled(old(ids[..]), ids[..], n, l, j)
    ensures DescendingIn(ids[..], l, j)
  {
    hide Shuffled;
    hide Cut;
    hide DescendingIn;
    hide Holed;
    ghost var s := ids[..];
    var a := ids[j];
    var i := j - 1;
    HoleStart(s, n, l, j);
    assert s[j := a] == s;
    while i >= 1
      invariant 0 <= i < j && l <= i + 1 && |s| == ids.Length
      invariant Holed(s, ids[..][i + 1 := a], n, l, j, i + 1)
      decreases i
    {
      if ids[i] >= a {
        break;
      }
      ghost var d := ids[..];
      HoleNext(s, d, n, l, j, i, a);
      ids[i + 1] := ids[i];
      assert ids[..] == d[i + 1 := d[i]];
      i := i - 1;
    }
    ghost var d := ids[..];
    HoleFilled(s, d, n, l, j, i, a);
    ids[i + 1] := a;
    assert ids[..] == d[i + 1 := a];
  }

  lemma Widen(s: seq<nat>, t: seq<nat>, n: int, l: int, j: int, r: int)
    requires Shuffled(s, t, n, l, j) && l <= j <= r
    ensures Shuffled(s, t, n, l, r)
  {
  }

  /** Insertion sort of a short interval. */
  method InsertionSort(ids: array<nat>, ghost n: int, l: int, r: int)
    requires IsList(ids[..], n) && 1 <= l && l - 1 <= r <= n && Cut(ids[..], n, l - 1)
    modifies ids
    ensures Shuffled(old(ids[..]), ids[..], n, l, r)
    ensures DescendingIn(ids[..], l, r)
  {
    ghost var s := ids[..];
    ShuffledRefl(s, n, l, r);
    var j := l + 1;
    while j <= r
      invariant l + 1 <= j && (j <= r + 1 || j == l + 1) && ids.Length == |s|
      invariant Shuffled(s, ids[..], n, l, r)
      invariant r >= l ==> DescendingIn(ids[..], l, j - 1)
    {
      ghost var t := ids[..];
      Insert(ids, n, l, j);
      Widen(t, ids[..], n, l, j, r);
      ShuffledThen(s, t, ids[..], n, l, r);
      j := j + 1;
    }
  }

  // Partitioning

  ghost predicate AtLeast(s: seq<nat>, lo: int, hi: int, a: nat)
    requires 0 <= lo && hi < |s|
  {
    forall x | lo <= x <= hi :: s[x] >= a
  }

  ghost predicate AtMost(s: seq<nat>, lo: int, hi: int, a: nat)
    requires 0 <= lo && hi < |s|
  {
    forall x | lo <= x <= hi :: s[x] <= a
  }

  /** Exchanges two elements of an interval unless they are in order already. */
  method Arrange(ids: array<nat>, ghost s: seq<nat>, ghost n: int, ghost l: int, ghost r: int, i: int, j: int)
    requires IsList(ids[..], n) && 1 <= l <= i < j <= r <= n && Shuffled(s, ids[..], n, l, r)
    modifies ids
    ensures Shuffled(s, ids[..], n, l, r)
    ensures ids[i] == if old(ids[i]) >= old(ids[j]) then old(ids[i]) else old(ids[j])
    ensures ids[j] == if old(ids[i]) >= old(ids[j]) then old(ids[j]) else old(ids[i])
    ensures forall x | 0 <= x < ids.Length && x != i && x != j :: ids[x] == old(ids[x])
  {
    hide Shuffled;
    if ids[i] < ids[j] {
      ghost var t := ids[..];
      Swap(ids, n, l, r, i, j);
      ShuffledThen(s, t, ids[..], n, l, r);
      assert forall x | 0 <= x < ids.Length :: ids[x] == ids[..][x] && old(ids[x]) == t[x];
    }
  }

  /** Orders the first, the middle and the last element of an interval; the middle one ends up in slot l+1. */
  method Median(ids: array<nat>, ghost n: int, l: int, r: int)
    requires IsList(ids[..], n) && 1 <= l && r <= n && r - l >= 2
    modifies ids
    ensures Shuffled(old(ids[..]), ids[..], n, l, r)
    ensures ids[l] >= ids[l + 1] >= ids[r]
  {
    hide Shuffled;
    ghost var s := ids[..];
    var k := (l + r) / 2;
    Swap(ids, n, l, r, k, l + 1);
    Arrange(ids, s, n, l, r, l, r);
    Arrange(ids, s, n, l, r, l + 1, r);
    Arrange(ids, s, n, l, r, l, l + 1);
  }

  /** Between the two scans everything up to `i` is at least the pivot and everything from `j` on at most. */
  ghost predicate Scanning(s: seq<nat>, l: int, r: int, i: int, j: int, a: nat) {
    && 1 <= l < i <= j <= r < |s|
    && s[l + 1] == a
    && AtLeast(s, l, i, a) && AtMost(s, j, r, a)
    && (i == j ==> l + 1 < i && j < r)
  }

  /** The first element from `i + 1` on that is not above the pivot; it is found before leaving the interval. */
  method ScanUp(ids: array<nat>, ghost l: int, ghost r: int, i0: int, ghost j0: int, a: nat) returns (i: int)
    requires Scanning(ids[..], l, r, i0, j0, a)
    ensures i0 < i <= r && ids[i] <= a && AtLeast(ids[..], l, i - 1, a)
    ensures i <= j0 || i == i0 + 1
  {
    i := i0 + 1;
    ghost var s := ids[..];
    assert ids[i] == s[i];
    while ids[i] > a
      invariant i0 < i <= r && (i <= j0 || i == i0 + 1)
      invariant AtLeast(s, l, i - 1, a)
      decreases r - i
    {
      assert s[j0] <= a && s[i] > a;
      assert i != j0 + 1;
      i := i + 1;
    }
  }

  /** The last element before `j` that is not below the pivot. */
  method ScanDown(ids: array<nat>, ghost l: int, ghost r: int, ghost i0: int, j0: int, a: nat) returns (j: int)
    requires Scanning(ids[..], l, r, i0, j0, a)
    ensures l < j < j0 && ids[j] >= a && AtMost(ids[..], j + 1, r, a)
    ensures j >= i0 || j == j0 - 1
  {
    j := j0 - 1;
    ghost var s := ids[..];
    assert ids[j] == s[j];
    while ids[j] < a
      invariant l < j < j0 && (j >= i0 || j == j0 - 1)
      invariant AtMost(s, j + 1, r, a)
      decreases j
    {
      assert s[i0] >= a && s[j] < a;
      assert j != i0 - 1;
      j := j - 1;
    }
  }

  /** What a finished partition leaves: [l..j-1], a gap of pivots, and [i..r]. */
  ghost predicate Parted(s: seq<nat>, l: int, r: int, i: int, j: int) {
    && 1 <= l < j < i <= r < |s|
    && AtLeast(s, l, j - 1, s[j]) && AtMost(s, i, r, s[j])
    && (forall x | j <= x < i :: s[x] == s[j])
  }

  lemma ScansMeet(s: seq<nat>, t: seq<nat>, l: int, r: int, i: int, j: int, a: nat)
    requires 1 <= l < j < i <= r < |s| && s[l + 1] == a && s[j] >= a
    requires AtLeast(s, l, i - 1, a) && AtMost(s, j + 1, r, a)
    requires t == s[l + 1 := s[j]][j := a]
    ensures Parted(t, l, r, i, j)
  {
  }

  lemma ScansPass(s: seq<nat>, t: seq<nat>, l: int, r: int, i: int, j: int, a: nat)
    requires 1 <= l && l + 1 < i <= j < r < |s| && s[l + 1] == a && s[i] <= a <= s[j]
    requires AtLeast(s, l, i - 1, a) && AtMost(s, j + 1, r, a)
    requires t == s[i := s[j]][j := s[i]]
    ensures Scanning(t, l, r, i, j, a)
  {
  }

  /** Splits an interval around the median of three; neither scan leaves the interval. */
  method Partition(ids: array<nat>, ghost n: int, l: int, r: int) returns (i: int, j: int)
    requires IsList(ids[..], n) && 1 <= l && r <= n && r - l >= 8
    modifies ids
    ensures Shuffled(old(ids[..]), ids[..], n, l, r)
    ensures Parted(ids[..], l, r, i, j)
  {
    hide Shuffled;
    ghost var s := ids[..];
    Median(ids, n, l, r);
    i := l + 1;
    j := r;
    var a := ids[l + 1];
    assert Scanning(ids[..], l, r, i, j, a);
    hide Scanning;
    hide AtLeast;
    hide AtMost;
    hide Parted;
    while true
      invariant IsList(ids[..], n) && ids.Length == |s|
      invariant Shuffled(s, ids[..], n, l, r) && Scanning(ids[..], l, r, i, j, a)
      decreases j - i + 1
    {
      ghost var t := ids[..];
      ScanBounds(t, l, r, i, j, a);
      var i1 := ScanUp(ids, l, r, i, j, a);
      var j1 := ScanDown(ids, l, r, i, j, a);
      assert ids[..] == t;
      i, j := i1, j1;
      assert ids[i] == t[i] && ids[j] == t[j];
      if j < i {
        break;
      }
      Swap(ids, n, l, r, i, j);
      ShuffledThen(s, t, ids[..], n, l, r);
      ScansPass(t, ids[..], l, r, i, j, a);
    }
    ghost var t := ids[..];
    SwapShuffles(t, n, l, r, l + 1, j);
    ids[l + 1] := ids[j];
    ids[j] := a;
    assert ids[..] == t[l + 1 := t[j]][j := a];
    ShuffledThen(s, t, ids[..], n, l, r);
    ScansMeet(t, ids[..], l, r, i, j, a);
  }

  lemma ScanBounds(s: seq<nat>, l: int, r: int, i: int, j: int, a: nat)
    requires Scanning(s, l, r, i, j, a)
    ensures 1 <= l < i <= j <= r < |s| && s[l + 1] == a
  {
  }

  // The intervals still to be sorted: the stacked ones, and last the current one

  datatype Interval = Interval(lo: int, hi: int)

  ghost predicate Apart(v: Interval, w: Interval) {
    v.hi < w.lo || w.hi < v.lo
  }

  ghost predicate IntervalOk(s: seq<nat>, n: int, v: Interval)
    requires IsList(s, n)
  {
    1 <= v.lo <= v.hi + 1 <= n + 1 && Cut(s, n, v.lo - 1) && Cut(s, n, v.hi)
  }

  ghost predicate Covered(vs: seq<Interval>, p: int) {
    exists m | 0 <= m < |vs| :: vs[m].lo <= p < vs[m].hi
  }

  /** The pending intervals are apart and cut off from the rest, and whatever boundary is not inside one
      of them is a cut already. */
  ghost predicate Plan(s: seq<nat>, n: int, vs: seq<Interval>)
    requires IsList(s, n)
  {
    && (forall m | 0 <= m < |vs| :: IntervalOk(s, n, vs[m]))
    && (forall m, k | 0 <= m < k < |vs| :: Apart(vs[m], vs[k]))
    && (forall p | 0 <= p <= n :: Cut(s, n, p) || Covered(vs, p))
  }

  lemma PlanStart(s: seq<nat>, n: int)
    requires IsList(s, n)
    ensures Plan(s, n, [Interval(1, n)])
  {
    var vs := [Interval(1, n)];
    forall p | 0 <= p <= n ensures Cut(s, n, p) || Covered(vs, p) {
      assert vs[0].lo <= p < vs[0].hi || p == 0 || p == n;
    }
  }

  lemma PlanEnd(s: seq<nat>, n: int)
    requires IsList(s, n) && Plan(s, n, [])
    ensures Descending(s, n)
  {
    forall i, j | 1 <= i < j <= n ensures s[i] >= s[j] {
      assert Cut(s, n, i);
    }
  }

  /** Sorting one interval makes every boundary in it a cut. */
  lemma SortedCuts(t: seq<nat>, n: int, l: int, r: int, p: int)
    requires IsList(t, n) && 1 <= l <= p < r <= n && Cut(t, n, l - 1) && Cut(t, n, r)
    requires forall x, y | l <= x <= p < y <= r :: t[x] >= t[y]
    ensures Cut(t, n, p)
  {
    forall x, y | 1 <= x <= p < y <= n ensures t[x] >= t[y] {
      if x < l {
      } else if y > r {
      }
    }
  }

  /** Work inside one interval leaves the others as they are. */
  lemma OthersKept(s: seq<nat>, t: seq<nat>, n: int, v: Interval, w: Interval)
    requires IsList(s, n) && IntervalOk(s, n, v) && IntervalOk(s, n, w) && Apart(v, w)
    requires Shuffled(s, t, n, v.lo, v.hi)
    ensures IntervalOk(t, n, w)
  {
  }

  /** What remains of a plan when its last interval is replaced by zero or more parts of it. */
  lemma PlanReplace(s: seq<nat>, t: seq<nat>, n: int, vs: seq<Interval>, v: Interval, ws: seq<Interval>)
    requires IsList(s, n) && Plan(s, n, vs + [v]) && Shuffled(s, t, n, v.lo, v.hi)
    requires forall m | 0 <= m < |ws| :: v.lo <= ws[m].lo && ws[m].hi <= v.hi && IntervalOk(t, n, ws[m])
    requires forall m, k | 0 <= m < k < |ws| :: Apart(ws[m], ws[k])
    requires forall p | v.lo <= p < v.hi :: Cut(t, n, p) || Covered(ws, p)
    ensures Plan(t, n, vs + ws)
  {
    var us := vs + [v];
    assert us[|vs|] == v;
    assert IntervalOk(s, n, us[|vs|]);
    forall m | 0 <= m < |vs + ws| ensures IntervalOk(t, n, (vs + ws)[m]) {
      if m < |vs| {
        assert us[m] == vs[m];
        assert Apart(us[m], us[|vs|]);
        OthersKept(s, t, n, v, vs[m]);
      }
    }
    PlanApart(n, s, vs, v, ws);
    forall p | 0 <= p <= n ensures Cut(t, n, p) || Covered(vs + ws, p) {
      PlanCovers(s, t, n, vs, v, ws, p);
    }
  }

  lemma PlanApart(n: int, s: seq<nat>, vs: seq<Interval>, v: Interval, ws: seq<Interval>)
    requires IsList(s, n) && Plan(s, n, vs + [v])
    requires forall m | 0 <= m < |ws| :: v.lo <= ws[m].lo && ws[m].hi <= v.hi
    requires forall m, k | 0 <= m < k < |ws| :: Apart(ws[m], ws[k])
    ensures forall m, k | 0 <= m < k < |vs + ws| :: Apart((vs + ws)[m], (vs + ws)[k])
  {
    var us := vs + [v];
    forall m, k | 0 <= m < k < |vs + ws| ensures Apart((vs + ws)[m], (vs + ws)[k]) {
      if m < |vs| {
        assert us[m] == vs[m] && us[|vs|] == v;
        assert Apart(us[m], us[|vs|]);
        if k < |vs| {
          assert us[k] == vs[k];
          assert Apart(us[m], us[k]);
        } else {
          assert (vs + ws)[k] == ws[k - |vs|];
        }
      } else {
        assert (vs + ws)[m] == ws[m - |vs|] && (vs + ws)[k] == ws[k - |vs|];
      }
    }
  }

  lemma PlanCovers(s: seq<nat>, t: seq<nat>, n: int, vs: seq<Interval>, v: Interval, ws: seq<Interval>, p: int)
    requires IsList(s, n) && Plan(s, n, vs + [v]) && Shuffled(s, t, n, v.lo, v.hi) && 0 <= p <= n
    requires v.lo <= p < v.hi ==> Cut(t, n, p) || Covered(ws, p)
    ensures Cut(t, n, p) || Covered(vs + ws, p)
  {
    var us := vs + [v];
    if v.lo <= p < v.hi {
      if !Cut(t, n, p) {
        var m :| 0 <= m < |ws| && ws[m].lo <= p < ws[m].hi;
        assert (vs + ws)[|vs| + m] == ws[m];
      }
    } else if !Cut(s, n, p) {
      assert Covered(us, p);
      var m :| 0 <= m < |us| && us[m].lo <= p < us[m].hi;
      assert m < |vs| && (vs + ws)[m] == us[m];
    }
  }

  lemma PlanSorted(s: seq<nat>, t: seq<nat>, n: int, vs: seq<Interval>, v: Interval)
    requires IsList(s, n) && Plan(s, n, vs + [v]) && Shuffled(s, t, n, v.lo, v.hi)
    requires 1 <= v.lo && v.hi <= n && DescendingIn(t, v.lo, v.hi)
    ensures Plan(t, n, vs)
  {
    EdgesKept(s, t, n, vs, v);
    forall p | v.lo <= p < v.hi ensures Cut(t, n, p) {
      SortedCuts(t, n, v.lo, v.hi, p);
    }
    PlanReplace(s, t, n, vs, v, []);
    assert vs + [] == vs;
  }

  lemma EdgesKept(s: seq<nat>, t: seq<nat>, n: int, vs: seq<Interval>, v: Interval)
    requires IsList(s, n) && Plan(s, n, vs + [v]) && Shuffled(s, t, n, v.lo, v.hi)
    ensures 1 <= v.lo <= v.hi + 1 <= n + 1 && Cut(s, n, v.lo - 1)
    ensures |t| == |s| && Cut(t, n, v.lo - 1) && Cut(t, n, v.hi)
  {
    assert (vs + [v])[|vs|] == v;
    assert IntervalOk(s, n, (vs + [v])[|vs|]);
  }

  /** A partition replaces its interval by the two parts, in either order. */
  lemma PlanParted(s: seq<nat>, t: seq<nat>, n: int, vs: seq<Interval>, v: Interval, i: int, j: int, swap: bool)
    requires IsList(s, n) && Plan(s, n, vs + [v]) && Shuffled(s, t, n, v.lo, v.hi)
    requires Parted(t, v.lo, v.hi, i, j)
    ensures Plan(t, n, vs + if swap then [Interval(v.lo, j - 1), Interval(i, v.hi)]
                                    else [Interval(i, v.hi), Interval(v.lo, j - 1)])
  {
    var ws := if swap then [Interval(v.lo, j - 1), Interval(i, v.hi)] else [Interval(i, v.hi), Interval(v.lo, j - 1)];
    EdgesKept(s, t, n, vs, v);
    forall p | j - 1 <= p < i ensures Cut(t, n, p) {
      SortedCuts(t, n, v.lo, v.hi, p);
    }
    forall p | v.lo <= p < v.hi ensures Cut(t, n, p) || Covered(ws, p) {
      assert ws[0].lo <= p < ws[0].hi || ws[1].lo <= p < ws[1].hi || j - 1 <= p < i;
    }
    assert forall m | 0 <= m < |ws| :: ws[m] == ws[0] || ws[m] == ws[1];
    PlanReplace(s, t, n, vs, v, ws);
  }

  // The stack bound: every level at least halves the interval

  function Pow2(k: nat): nat {
    if k == 0 then 1 else 2 * Pow2(k - 1)
  }

  lemma {:induction false} Pow2Mono(j: nat, k: nat)
    requires j <= k
    ensures Pow2(j) <= Pow2(k)
    decreases k
  {
    if j < k {
      Pow2Mono(j, k - 1);
    }
  }

  /** `size` can be doubled `depth` times without exceeding `n`. */
  ghost predicate Fits(size: int, depth: nat, n: int)
    decreases depth
  {
    if depth == 0 then size <= n else Fits(2 * size, depth - 1, n)
  }

  lemma {:induction false} FitsSmaller(size: int, smaller: int, depth: nat, n: int)
    requires Fits(size, depth, n) && smaller <= size
    ensures Fits(smaller, depth, n)
    decreases depth
  {
    if depth > 0 {
      FitsSmaller(2 * size, 2 * smaller, depth - 1, n);
    }
  }

  lemma {:induction false} FitsDeep(size: int, depth: nat, n: int, d: nat)
    requires Fits(size, depth, n) && size >= Pow2(d)
    ensures n >= Pow2(d + depth)
    decreases depth
  {
    if depth > 0 {
      FitsDeep(2 * size, depth - 1, n, d + 1);
    }
  }

  /** An interval long enough to be partitioned is never deeper than 26 levels. */
  lemma DepthBound(size: int, depth: nat, n: int)
    requires Fits(size, depth, n) && size > 8 && n < 0x4000_0000
    ensures depth < 27
  {
    assert Pow2(3) == 8;
    FitsDeep(size, depth, n, 3);
    assert Pow2(10) == 1024;
    assert Pow2(20) == 0x10_0000;
    assert Pow2(30) == 0x4000_0000;
    if depth >= 27 {
      Pow2Mono(30, 3 + depth);
    }
  }

  function Size(v: Interval): int {
    v.hi - v.lo + 1
  }

  ghost predicate AllFit(vs: seq<Interval>, n: int) {
    forall k | 0 <= k < |vs| :: Fits(Size(vs[k]), k, n)
  }

  ghost function Weight(vs: seq<Interval>): int {
    if vs == [] then 0 else Weight(vs[..|vs| - 1]) + 2 * Size(vs[|vs| - 1]) + 1
  }

  lemma WeightSnoc(vs: seq<Interval>, v: Interval)
    ensures Weight(vs + [v]) == Weight(vs) + 2 * Size(v) + 1
  {
    assert (vs + [v])[..|vs|] == vs;
  }

  lemma {:induction false} WeightNonneg(vs: seq<Interval>)
    requires forall k | 0 <= k < |vs| :: Size(vs[k]) >= 0
    ensures Weight(vs) >= 0
  {
    if vs != [] {
      WeightNonneg(vs[..|vs| - 1]);
    }
  }

  /** The stack array holds the bounds of the pending intervals in slots 1 and up. */
  ghost predicate Mirrors(stack: seq<int>, vs: seq<Interval>) {
    && 2 * |vs| < |stack|
    && (forall m | 0 <= m < |vs| :: stack[2 * m + 1] == vs[m].lo && stack[2 * m + 2] == vs[m].hi)
  }

  /** Everything the main loop keeps. */
  ghost predicate Sorting(s: seq<nat>, t: seq<nat>, n: int, vs: seq<Interval>, v: Interval) {
    && IsList(s, n) && |t| == |s| && Shuffled(s, t, n, 1, n)
    && Plan(t, n, vs + [v]) && AllFit(vs + [v], n)
  }

  lemma SortingStart(s: seq<nat>, n: int)
    requires IsList(s, n)
    ensures Sorting(s, s, n, [], Interval(1, n))
  {
    ShuffledRefl(s, n, 1, n);
    PlanStart(s, n);
    assert [] + [Interval(1, n)] == [Interval(1, n)];
  }

  lemma SortingBounds(s: seq<nat>, t: seq<nat>, n: int, vs: seq<Interval>, v: Interval)
    requires Sorting(s, t, n, vs, v)
    ensures |t| == |s| && IsList(t, n) && 1 <= v.lo <= v.hi + 1 <= n + 1 && Cut(t, n, v.lo - 1)
    ensures Weight(vs + [v]) >= 0
    ensures Size(v) > 8 && n < 0x4000_0000 ==> |vs| < 27
  {
    ShuffledRefl(t, n, v.lo, v.hi);
    EdgesKept(t, t, n, vs, v);
    var us := vs + [v];
    assert us[|vs|] == v;
    if Size(v) > 8 && n < 0x4000_0000 {
      DepthBound(Size(v), |vs|, n);
    }
    assert forall k | 0 <= k < |us| :: IntervalOk(t, n, us[k]);
    WeightNonneg(us);
  }

  lemma WidenAll(s: seq<nat>, t: seq<nat>, n: int, l: int, r: int)
    requires Shuffled(s, t, n, l, r) && 1 <= l && r <= n
    ensures Shuffled(s, t, n, 1, n)
  {
  }

  /** After a short interval is sorted: the next one comes off the stack, or all is done. */
  lemma SortingPop(s: seq<nat>, t: seq<nat>, u: seq<nat>, n: int, vs: seq<Interval>, v: Interval)
    requires Sorting(s, t, n, vs, v) && Shuffled(t, u, n, v.lo, v.hi)
    requires |u| == |t| && 1 <= v.lo && v.hi <= n && DescendingIn(u, v.lo, v.hi)
    ensures Shuffled(s, u, n, 1, n)
    ensures vs == [] ==> Descending(u, n)
    ensures vs != [] ==>
      var m := |vs| - 1; Sorting(s, u, n, vs[..m], vs[m]) && Weight(vs[..m] + [vs[m]]) < Weight(vs + [v])
  {
    hide Shuffled;
    hide Plan;
    hide DescendingIn;
    hide Descending;
    hide AllFit;
    hide Weight;
    WidenAll(t, u, n, v.lo, v.hi);
    ShuffledThen(s, t, u, n, 1, n);
    PlanSorted(t, u, n, vs, v);
    if vs == [] {
      PlanEnd(u, n);
    } else {
      PopFits(t, n, vs, v);
      assert vs[..|vs| - 1] + [vs[|vs| - 1]] == vs;
    }
  }

  lemma PopFits(t: seq<nat>, n: int, vs: seq<Interval>, v: Interval)
    requires IsList(t, n) && Plan(t, n, vs + [v]) && AllFit(vs + [v], n)
    ensures AllFit(vs, n) && Weight(vs) < Weight(vs + [v])
  {
    assert (vs + [v])[|vs|] == v;
    assert IntervalOk(t, n, (vs + [v])[|vs|]);
    WeightSnoc(vs, v);
    forall k | 0 <= k < |vs| ensures Fits(Size(vs[k]), k, n) {
      assert (vs + [v])[k] == vs[k];
    }
  }

  /** After a partition: the larger part is stacked and the smaller one is next. */
  lemma SortingPush(s: seq<nat>, t: seq<nat>, u: seq<nat>, n: int, vs: seq<Interval>, v: Interval, i: int, j: int)
    requires Sorting(s, t, n, vs, v) && Shuffled(t, u, n, v.lo, v.hi) && Parted(u, v.lo, v.hi, i, j) && v.hi <= n
    ensures
      var left := Interval(v.lo, j - 1); var right := Interval(i, v.hi);
      var (big, small) := if v.hi - i + 1 >= j - v.lo then (right, left) else (left, right);
      && Sorting(s, u, n, vs + [big], small)
      && Weight(vs + [big] + [small]) < Weight(vs + [v])
  {
    var left := Interval(v.lo, j - 1);
    var right := Interval(i, v.hi);
    var (big, small) := if v.hi - i + 1 >= j - v.lo then (right, left) else (left, right);
    WidenAll(t, u, n, v.lo, v.hi);
    ShuffledThen(s, t, u, n, 1, n);
    PlanParted(t, u, n, vs, v, i, j, v.hi - i + 1 < j - v.lo);
    assert vs + [big] + [small] == vs + [big, small];
    PushFits(vs, v, big, small, n);
  }

  lemma PushFits(vs: seq<Interval>, v: Interval, big: Interval, small: Interval, n: int)
    requires AllFit(vs + [v], n) && 0 <= Size(small) <= Size(big) && Size(big) + Size(small) < Size(v)
    ensures AllFit(vs + [big] + [small], n)
    ensures Weight(vs + [big] + [small]) < Weight(vs + [v])
  {
    assert (vs + [v])[|vs|] == v;
    FitsSmaller(Size(v), Size(big), |vs|, n);
    FitsSmaller(Size(v), 2 * Size(small), |vs|, n);
    WeightSnoc(vs, v);
    WeightSnoc(vs, big);
    WeightSnoc(vs + [big], small);
    var us := vs + [big] + [small];
    forall k | 0 <= k < |us| ensures Fits(Size(us[k]), k, n) {
      if k < |vs| {
        assert (vs + [v])[k] == us[k];
      } else if k == |vs| {
        assert us[k] == big;
      } else {
        assert us[k] == small;
      }
    }
  }

  lemma MirrorsPush(stack: seq<int>, stack': seq<int>, vs: seq<Interval>, v: Interval)
    requires Mirrors(stack, vs) && 2 * |vs| + 2 < |stack|
    requires stack' == stack[2 * |vs| + 2 := v.hi][2 * |vs| + 1 := v.lo]
    ensures Mirrors(stack', vs + [v])
  {
  }

  lemma MirrorsPop(stack: seq<int>, vs: seq<Interval>)
    requires Mirrors(stack, vs) && vs != []
    ensures 2 * |vs| < |stack|
    ensures stack[2 * |vs| - 1] == vs[|vs| - 1].lo && stack[2 * |vs|] == vs[|vs| - 1].hi
    ensures Mirrors(stack, vs[..|vs| - 1])
  {
    var m := |vs| - 1;
    assert stack[2 * m + 1] == vs[m].lo;
  }

  /** Sorts the IDs of a list in place. */
  method Sort(ids: array<nat>)
    requires ids.Length > 0 && ids[0] < ids.Length && ids[0] < 0x4000_0000
    modifies ids
    ensures ids[0] == old(ids[0])
    ensures Descending(ids[..], ids[0])
    ensures multiset(ids[1..ids[0] + 1]) == multiset(old(ids[1..ids[0] + 1]))
    ensures ids[ids[0] + 1..] == old(ids[ids[0] + 1..])
  {
    hide Shuffled;
    hide Descending;
    hide DescendingIn;
    hide Cut;
    hide Parted;
    hide Plan;
    hide AllFit;
    ghost var s := ids[..];
    ghost var n := ids[0];
    var istack := new int[64];
    var ir := ids[0];
    var l := 1;
    var jstack := 0;
    ghost var vs: seq<Interval> := [];
    SortingStart(s, n);
    assert Mirrors(istack[..], vs);
    hide Sorting;
    hide Mirrors;
    while true
      invariant ids.Length == |s| && IsList(s, n)
      invariant Sorting(s, ids[..], n, vs, Interval(l, ir))
      invariant Mirrors(istack[..], vs) && jstack == 2 * |vs| < 64
      decreases Weight(vs + [Interval(l, ir)])
    {
      ghost var t := ids[..];
      ghost var v := Interval(l, ir);
      SortingBounds(s, t, n, vs, v);
      if ir - l < 8 {
        InsertionSort(ids, n, l, ir);
        SortingPop(s, t, ids[..], n, vs, v);
        if jstack == 0 {
          break;
        }
        MirrorsPop(istack[..], vs);
        ir := istack[jstack];
        l := istack[jstack - 1];
        jstack := jstack - 2;
        assert Interval(l, ir) == vs[|vs| - 1];
        vs := vs[..|vs| - 1];
      } else {
        var i, j := Partition(ids, n, l, ir);
        SortingPush(s, t, ids[..], n, vs, v, i, j);
        ghost var stack := istack[..];
        jstack := jstack + 2;
        if ir - i + 1 >= j - l {
          istack[jstack] := ir;
          istack[jstack - 1] := i;
          MirrorsPush(stack, istack[..], vs, Interval(i, ir));
          vs := vs + [Interval(i, ir)];
          ir := j - 1;
        } else {
          istack[jstack] := j - 1;
          istack[jstack - 1] := l;
          MirrorsPush(stack, istack[..], vs, Interval(l, j - 1));
          vs := vs + [Interval(l, j - 1)];
          l := i;
        }
      }
    }
    ShuffledList(s, ids[..], n);
  }

  lemma ShuffledList(s: seq<nat>, t: seq<nat>, n: int)
    requires Shuffled(s, t, n, 1, n)
    ensures |t| == |s| && t[0] == s[0] && t[n + 1..] == s[n + 1..]
    ensures multiset(t[1..n + 1]) == multiset(s[1..n + 1])
  {
    var tail := s[n + 1..];
    assert t[n + 1..] == tail;
    assert s == [s[0]] + s[1..n + 1] + tail;
    assert t == [s[0]] + t[1..n + 1] + tail;
    assert multiset(s[1..n + 1]) == multiset(s) - multiset([s[0]]) - multiset(tail);
    assert multiset(t[1..n + 1]) == multiset(t) - multiset([s[0]]) - multiset(tail);
  }
}
