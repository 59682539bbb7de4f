/** Choosing a message ID that is not in use on an upstream TCP session. */
module MsgIds {
  import opened Prelude

  const IDS := 0x1_0000

  /** The ID reached by `j` increments from `first`, wrapping at 16 bits. */
  function Probe(first: nat, j: nat): nat { (first + j) % IDS }

  ghost function Probed(first: nat, n: nat): set<nat> {
    if n == 0 then {} else Probed(first, n - 1) + {Probe(first, n - 1)}
  }

  lemma {:induction false} ProbedIs(first: nat, n: nat)
    ensures forall id :: id in Probed(first, n) <==> exists j: nat | j < n :: id == Probe(first, j)
  {
    if n != 0 {
      ProbedIs(first, n - 1);
      assert forall id :: id in Probed(first, n) <==> id in Probed(first, n - 1) || id == Probe(first, n - 1);
    }
  }

  /** As long as the probes have not gone round once, they are all different. */
  lemma {:induction false} ProbesDiffer(first: nat, n: nat)
    requires n <= IDS
    ensures |Probed(first, n)| == n
  {
    if n != 0 {
      ProbesDiffer(first, n - 1);
      ProbedIs(first, n - 1);
      forall j: nat | j < n - 1 ensures Probe(first, j) != Probe(first, n - 1) {
        NoWrap(first + j, n - 1 - j);
      }
    }
  }

  lemma NoWrap(a: nat, d: nat)
    requires 0 < d < IDS
    ensures a % IDS != (a + d) % IDS
  {
    var q, r := a / IDS, (a + d) / IDS;
    assert q <= r <= q + 1;
  }

  ghost function Below(n: nat): (s: set<nat>)
    ensures |s| == n && forall k: nat :: k in s <==> k < n
  {
    if n == 0 then {} else Below(n - 1) + {n - 1}
  }

  /** Some identity is always unused. */
  lemma FreshKey<V>(m: map<nat, V>)
    ensures exists k: nat :: k !in m
  {
    if Below(|m| + 1) <= m.Keys {
      SubsetSize(Below(|m| + 1), m.Keys);
    } else {
      var k :| k in Below(|m| + 1) && k !in m.Keys;
    }
  }

  lemma FullTable<T>(tasks: map<nat, T>, id: nat)
    requires |tasks| >= IDS && id < IDS && forall k | k in tasks :: k < IDS
    ensures id in tasks
  {
    if id !in tasks {
      SubsetSize(tasks.Keys, Below(IDS) - {id});
    }
  }

  /** Linear probing with wrap-around: the first free ID is found, within as many probes as there
      are entries, exactly when the table is not completely full. */
  method FindFree<T>(tasks: map<nat, T>, first: nat) returns (id: nat, found: bool)
    requires first < IDS && forall k | k in tasks :: k < IDS
    ensures id < IDS
    ensures found <==> |tasks| < IDS
    ensures found ==> id !in tasks
    ensures found ==> exists n: nat | n <= |tasks| :: id == Probe(first, n) && forall j: nat | j < n :: Probe(first, j) in tasks
  {
    var limit := |tasks| + 1;
    id := first;
    var tries := 0;
    while id in tasks && tries <= limit
      invariant 0 <= tries <= limit + 1
      invariant id == Probe(first, tries)
      invariant forall j: nat | j < tries :: Probe(first, j) in tasks
    {
      id := (id + 1) % IDS;
      tries := tries + 1;
    }
    found := tries <= limit;
    ghost var n := if tries <= IDS then tries else IDS;
    ProbesDiffer(first, n);
    ProbedIs(first, n);
    SubsetSize(Probed(first, n), tasks.Keys);
    if |tasks| >= IDS {
      FullTable(tasks, id);
    }
  }
}
