/** What several modules share: optional values, wrapping, and facts about sequences and sets. */
module Prelude {

  datatype Option<+T> = None | Some(value: T)

  /** `done` in front of a sequence that may be missing. */
  function Prepend<T>(done: seq<T>, r: Option<seq<T>>): Option<seq<T>> {
    if r.Some? then Some(done + r.value) else None
  }

  lemma PrependNone<T>(r: Option<seq<T>>)
    ensures Prepend([], r) == r
  {
    if r.Some? {
      assert [] + r.value == r.value;
    }
  }

  lemma Assoc<T>(a: seq<T>, b: seq<T>, c: seq<T>)
    ensures a + (b + c) == a + b + c
  {
  }

  /** The concatenation of all elements. */
  function Flat<T>(bs: seq<seq<T>>): seq<T> {
    if bs == [] then [] else bs[0] + Flat(bs[1..])
  }

  lemma {:induction false} FlatThen<T>(a: seq<seq<T>>, b: seq<seq<T>>)
    ensures Flat(a + b) == Flat(a) + Flat(b)
  {
    if a == [] {
      assert a + b == b;
    } else {
      FlatThen(a[1..], b);
      assert (a + b)[1..] == a[1..] + b;
      assert a[0] + (Flat(a[1..]) + Flat(b)) == a[0] + Flat(a[1..]) + Flat(b);
    }
  }

  lemma FlatNone<T>()
    ensures Flat<T>([]) == []
  {
  }

  lemma FlatSnoc<T>(a: seq<seq<T>>, b: seq<T>)
    ensures Flat(a + [b]) == Flat(a) + b
  {
    FlatThen(a, [b]);
    assert Flat([b]) == b + Flat([]) == b;
  }

  lemma FlatTake<T>(bs: seq<seq<T>>, i: nat)
    requires i < |bs|
    ensures Flat(bs[..i + 1]) == Flat(bs[..i]) + bs[i]
  {
    assert bs[..i + 1] == bs[..i] + [bs[i]];
    FlatSnoc(bs[..i], bs[i]);
  }

  lemma FlatAll<T>(bs: seq<seq<T>>)
    ensures Flat(bs[..|bs|]) == Flat(bs)
  {
    assert bs[..|bs|] == bs;
  }

  lemma FlatSplit<T>(bs: seq<seq<T>>, i: nat)
    requires i <= |bs|
    ensures |Flat(bs[..i])| <= |Flat(bs)| && Flat(bs) == Flat(bs[..i]) + Flat(bs[i..])
  {
    FlatThen(bs[..i], bs[i..]);
    assert bs[..i] + bs[i..] == bs;
  }

  lemma SubsetSize<T>(a: set<T>, b: set<T>)
    requires a <= b
    ensures |a| <= |b|
  {
    assert b == a + (b - a);
  }

  /** The value of a 32-bit signed integer after wrapping. */
  function Int32(x: int): int {
    var m := x % 0x1_0000_0000;
    if m < 0x8000_0000 then m else m - 0x1_0000_0000
  }
}
