/** Choosing name server addresses by their measured round trip times. */
module NsElection {
  import opened Prelude

  const RTT_MAX: nat := 2000
  const MAX_SCORE: nat := 20 * RTT_MAX
  const TIMEOUT: nat := 95 * RTT_MAX / 100
  const LONG: nat := 3 * TIMEOUT / 4
  const GLUED: nat := 10
  const DEAD: nat := (TIMEOUT * 4 + 3) / 3
  const FAVOUR_IPV6: nat := 20
  const MAXADDR: nat := 4
  const UINT_MAX: nat := 0xFFFF_FFFF

  datatype Addr = V4(host: nat) | V6(net: nat, id: nat) | Odd(len: nat)

  datatype Rtt = Rtt(score: nat, tout: nat)

  /** What an election depends on: the measurements, the clock and which address families are in use. */
  datatype Context = Context(cache: map<Addr, Rtt>, now: nat, interval: nat, noV4: bool, noV6: bool)

  predicate Enabled(c: Context, a: Addr) {
    match a
    case V4(_) => !c.noV4
    case V6(_, _) => !c.noV6
    case Odd(_) => false
  }

  function Elapsed(c: Context, e: Rtt): (n: nat)
    ensures n <= UINT_MAX
  {
    var n := (c.now - e.tout) % 0x1_0000_0000_0000_0000;
    if n > UINT_MAX then UINT_MAX else n
  }

  /** An address that timed out long enough ago to be tried again. */
  predicate Due(c: Context, a: Addr) {
    a in c.cache && c.cache[a].score >= TIMEOUT && Elapsed(c, c.cache[a]) > c.interval
  }

  function Score(c: Context, a: Addr): nat {
    if a !in c.cache then GLUED else if Due(c, a) then LONG - 1 else c.cache[a].score
  }

  predicate Alive(c: Context, a: Addr) {
    Enabled(c, a) && Score(c, a) < TIMEOUT
  }

  ghost predicate SomeAlive(c: Context, addrs: seq<Addr>) {
    exists i | 0 <= i < |addrs| :: Alive(c, addrs[i])
  }

  lemma SomeAliveSnoc(c: Context, addrs: seq<Addr>, k: nat)
    requires k < |addrs|
    ensures SomeAlive(c, addrs[..k + 1]) <==> SomeAlive(c, addrs[..k]) || Alive(c, addrs[k])
  {
    var s, t := addrs[..k], addrs[..k + 1];
    assert t[k] == addrs[k];
    forall i | 0 <= i < k ensures s[i] == t[i] {
    }
    if SomeAlive(c, s) {
      var i :| 0 <= i < |s| && Alive(c, s[i]);
      assert Alive(c, t[i]);
    }
    if SomeAlive(c, t) {
      var i :| 0 <= i < |t| && Alive(c, t[i]);
      assert i < k ==> Alive(c, s[i]);
    }
  }

  /** The best score among the enabled addresses, or what was there before. */
  function Best(c: Context, addrs: seq<Addr>, score: nat): nat {
    if addrs == [] then score
    else
      var b := Best(c, addrs[..|addrs| - 1], score);
      var a := addrs[|addrs| - 1];
      if Enabled(c, a) && Score(c, a) < b then Score(c, a) else b
  }

  /** A slot names an enabled address with its score. */
  ghost predicate SlotOk(c: Context, addrs: seq<Addr>, k: nat, chosen: Option<nat>, score: nat)
    requires k <= |addrs|
  {
    chosen.Some? ==> chosen.value < k && Enabled(c, addrs[chosen.value]) && score == Score(c, addrs[chosen.value])
  }

  ghost predicate SlotsOk(c: Context, addrs: seq<Addr>, k: nat, chosen: seq<Option<nat>>, scores: seq<nat>)
    requires k <= |addrs|
  {
    |chosen| == |scores| == MAXADDR && forall i | 0 <= i < MAXADDR :: SlotOk(c, addrs, k, chosen[i], scores[i])
  }

  function Favour(a: Addr): nat {
    if a.V6? then FAVOUR_IPV6 else 0
  }

  /** Whether a contender with score `cur` takes the place of one with score `held`. */
  predicate Beats(cur: nat, held: nat, favour: nat) {
    if cur >= TIMEOUT then cur < held else cur < held + favour
  }

  /** Puts a contender into the first slot it beats, moving the others down. */
  method Contend(chosen: array<Option<nat>>, scores: array<nat>, k: nat, cur: nat, favour: nat)
    requires chosen.Length == scores.Length == MAXADDR
    modifies chosen, scores
    ensures forall i | 0 <= i < MAXADDR ::
      || (chosen[i] == Some(k) && scores[i] == cur)
      || (chosen[i] == old(chosen[i]) && scores[i] == old(scores[i]))
      || (i > 0 && chosen[i] == old(chosen[i - 1]) && scores[i] == old(scores[i - 1]))
    ensures if Beats(cur, old(scores[0]), favour) then chosen[0] == Some(k) && scores[0] == cur
            else chosen[0] == old(chosen[0]) && scores[0] == old(scores[0])
  {
    ghost var ch, sc := chosen[..], scores[..];
    var i := 0;
    while i < MAXADDR
      invariant 0 <= i <= MAXADDR && chosen[..] == ch && scores[..] == sc
      invariant i > 0 ==> !Beats(cur, sc[0], favour)
    {
      if cur >= TIMEOUT {
        if cur >= scores[i] {
          i := i + 1;
          continue;
        }
      }
      if cur >= TIMEOUT || cur < scores[i] + favour {
        ShakeDown(chosen, scores, i);
        chosen[i] := Some(k);
        scores[i] := cur;
        break;
      }
      i := i + 1;
    }
  }

  method ShakeDown(chosen: array<Option<nat>>, scores: array<nat>, i: nat)
    requires chosen.Length == scores.Length == MAXADDR && i < MAXADDR
    modifies chosen, scores
    ensures forall j | 0 <= j <= i :: chosen[j] == old(chosen[j]) && scores[j] == old(scores[j])
    ensures forall j | i < j < MAXADDR :: chosen[j] == old(chosen[j - 1]) && scores[j] == old(scores[j - 1])
  {
    ghost var ch, sc := chosen[..], scores[..];
    var j := MAXADDR - 1;
    while j > i
      invariant i <= j < MAXADDR
      invariant forall x | 0 <= x <= j :: chosen[x] == ch[x] && scores[x] == sc[x]
      invariant forall x | j < x < MAXADDR :: chosen[x] == ch[x - 1] && scores[x] == sc[x - 1]
    {
      chosen[j] := chosen[j - 1];
      scores[j] := scores[j - 1];
      j := j - 1;
    }
  }

  /** The score that ends up first, as a fold over the addresses. */
  function First(c: Context, addrs: seq<Addr>, score: nat): nat {
    if addrs == [] then score
    else
      var held := First(c, addrs[..|addrs| - 1], score);
      var a := addrs[|addrs| - 1];
      if Enabled(c, a) && Beats(Score(c, a), held, Favour(a)) then Score(c, a) else held
  }

  /** The first choice is alive exactly when some address is; a dead one never displaces it. */
  lemma {:induction false} FirstAlive(c: Context, addrs: seq<Addr>, score: nat)
    requires score >= TIMEOUT
    ensures First(c, addrs, score) < TIMEOUT <==> SomeAlive(c, addrs)
  {
    if addrs != [] {
      var k := |addrs| - 1;
      FirstAlive(c, addrs[..k], score);
      assert addrs[..k + 1] == addrs;
      SomeAliveSnoc(c, addrs, k);
    }
  }

  function EnabledV6(c: Context, addrs: seq<Addr>): nat {
    if addrs == [] then 0
    else
      var a := addrs[|addrs| - 1];
      EnabledV6(c, addrs[..|addrs| - 1]) + if a.V6? && Enabled(c, a) then 1 else 0
  }

  /** How far the first choice may be from the best one: every IPv6 address may add its bonus less one. */
  lemma {:induction false} FirstBound(c: Context, addrs: seq<Addr>, score: nat)
    ensures Best(c, addrs, score) <= First(c, addrs, score)
         <= Best(c, addrs, score) + (FAVOUR_IPV6 - 1) * EnabledV6(c, addrs)
  {
    if addrs != [] {
      FirstBound(c, addrs[..|addrs| - 1], score);
    }
  }

  predicate Hits(c: Context, a: Addr, best: nat) {
    Enabled(c, a) && Score(c, a) == best
  }

  /** An IPv6 address that is not the best but close enough to take its place. */
  predicate Near(c: Context, a: Addr, best: nat) {
    Enabled(c, a) && a.V6? && best < Score(c, a) < best + FAVOUR_IPV6 && Score(c, a) < TIMEOUT
  }

  /** After every address that comes near, one with the best score follows. */
  ghost predicate Unspoiled(c: Context, addrs: seq<Addr>, best: nat) {
    forall i | 0 <= i < |addrs| && Near(c, addrs[i], best) :: Followed(c, addrs, i, best)
  }

  ghost predicate Followed(c: Context, addrs: seq<Addr>, i: int, best: nat) {
    exists j | 0 <= i < j < |addrs| :: Hits(c, addrs[j], best)
  }

  ghost predicate Met(c: Context, addrs: seq<Addr>, score: nat, best: nat) {
    score == best || exists j | 0 <= j < |addrs| :: Hits(c, addrs[j], best)
  }

  lemma MetSnoc(c: Context, addrs: seq<Addr>, a: Addr, score: nat, best: nat)
    ensures Met(c, addrs + [a], score, best) <==> Met(c, addrs, score, best) || Hits(c, a, best)
  {
    var all := addrs + [a];
    assert all[|addrs|] == a;
    if Met(c, addrs, score, best) && score != best {
      var j :| 0 <= j < |addrs| && Hits(c, addrs[j], best);
      assert Hits(c, all[j], best);
    }
  }

  lemma UnspoiledSnoc(c: Context, addrs: seq<Addr>, a: Addr, best: nat)
    ensures Hits(c, a, best) ==> Unspoiled(c, addrs + [a], best)
    ensures Near(c, a, best) ==> !Unspoiled(c, addrs + [a], best)
    ensures !Hits(c, a, best) && !Near(c, a, best) ==> (Unspoiled(c, addrs + [a], best) <==> Unspoiled(c, addrs, best))
  {
    var all, k := addrs + [a], |addrs|;
    assert all[k] == a;
    if !Hits(c, a, best) && !Near(c, a, best) {
      assert forall i | 0 <= i < k :: all[i] == addrs[i];
      forall i | 0 <= i < k ensures Followed(c, all, i, best) <==> Followed(c, addrs, i, best) {
        if Followed(c, addrs, i, best) {
          var j :| i < j < k && Hits(c, addrs[j], best);
          assert Hits(c, all[j], best);
        }
      }
    }
  }

  lemma {:induction false} FirstExact(c: Context, addrs: seq<Addr>, score: nat, best: nat)
    requires best <= score && forall i | 0 <= i < |addrs| && Enabled(c, addrs[i]) :: best <= Score(c, addrs[i])
    ensures best <= First(c, addrs, score)
    ensures First(c, addrs, score) == best <==> Met(c, addrs, score, best) && Unspoiled(c, addrs, best)
  {
    if addrs != [] {
      hide Score;
      hide Enabled;
      var k := |addrs| - 1;
      var front, a := addrs[..k], addrs[k];
      assert addrs == front + [a];
      FirstExact(c, front, score, best);
      MetSnoc(c, front, a, score, best);
      UnspoiledSnoc(c, front, a, best);
      hide Met;
      hide Unspoiled;
    }
  }

  lemma {:induction false} BestIs(c: Context, addrs: seq<Addr>, score: nat)
    ensures Best(c, addrs, score) <= score && Met(c, addrs, score, Best(c, addrs, score))
    ensures forall i | 0 <= i < |addrs| && Enabled(c, addrs[i]) :: Best(c, addrs, score) <= Score(c, addrs[i])
  {
    if addrs != [] {
      hide Score;
      hide Enabled;
      var k := |addrs| - 1;
      var front, a := addrs[..k], addrs[k];
      assert addrs == front + [a];
      BestIs(c, front, score);
      MetSnoc(c, front, a, score, Best(c, addrs, score));
      hide Met;
    }
  }

  /** The first choice is the best one exactly when no IPv6 address comes near the best score after its last holder. */
  lemma FirstIsBest(c: Context, addrs: seq<Addr>, score: nat)
    ensures var best := Best(c, addrs, score); First(c, addrs, score) == best <==> Unspoiled(c, addrs, best)
  {
    BestIs(c, addrs, score);
    FirstExact(c, addrs, score, Best(c, addrs, score));
  }

  /** It need not be: the bonus is given again at every step, and the bound above is reached. */
  lemma FirstDrifts()
    ensures
      var fast, medium, slow := V6(0, 1), V6(0, 2), V6(0, 3);
      var cache := map[fast := Rtt(10, 0), medium := Rtt(29, 0), slow := Rtt(48, 0)];
      var c := Context(cache, 0, 1000, false, false);
      First(c, [fast, medium, slow], MAX_SCORE) == 48 && Best(c, [fast, medium, slow], MAX_SCORE) == 10
  {
    var fast, medium, slow := V6(0, 1), V6(0, 2), V6(0, 3);
    var cache := map[fast := Rtt(10, 0), medium := Rtt(29, 0), slow := Rtt(48, 0)];
    var c := Context(cache, 0, 1000, false, false);
    var all := [fast, medium, slow];
    assert all[..2] == [fast, medium] && [fast, medium][..1] == [fast] && [fast][..0] == [];
    assert First(c, [fast], MAX_SCORE) == 10 && Best(c, [fast], MAX_SCORE) == 10;
    assert First(c, [fast, medium], MAX_SCORE) == 29 && Best(c, [fast, medium], MAX_SCORE) == 10;
  }

  /** Elects up to four addresses of a name server; those that are tried again after a timeout are stamped. */
  method EvalAddrSet(c: Context, addrs: seq<Addr>, score: nat)
    returns (r: nat, choice: seq<Option<nat>>, cache: map<Addr, Rtt>)
    ensures r == First(c, addrs, score)
    ensures score >= TIMEOUT ==> (r < TIMEOUT <==> SomeAlive(c, addrs))
    ensures |choice| == MAXADDR && forall i | 0 <= i < MAXADDR && choice[i].Some? ::
      choice[i].value < |addrs| && Enabled(c, addrs[choice[i].value])
    ensures if choice[0].Some? then r == Score(c, addrs[choice[0].value]) else r == score
    ensures cache.Keys == c.cache.Keys && forall a | a in cache ::
      cache[a] == if Due(c, a) && Elected(addrs, choice, MAXADDR, a) then c.cache[a].(tout := c.now) else c.cache[a]
  {
    var chosen := new Option<nat>[MAXADDR](_ => None);
    var scores := new nat[MAXADDR](i => if i == 0 then score else if i == 1 then MAX_SCORE + 1 else 0);
    for k := 0 to |addrs|
      invariant SlotsOk(c, addrs, k, chosen[..], scores[..])
      invariant scores[0] == First(c, addrs[..k], score) && (chosen[0].None? ==> scores[0] == score)
    {
      var a := addrs[k];
      assert addrs[..k + 1][..k] == addrs[..k];
      ghost var ch, sc := chosen[..], scores[..];
      if Enabled(c, a) {
        Contend(chosen, scores, k, Score(c, a), Favour(a));
        forall i | 0 <= i < MAXADDR ensures SlotOk(c, addrs, k + 1, chosen[i], scores[i]) {
          assert SlotOk(c, addrs, k, ch[i], sc[i]);
          assert i > 0 ==> SlotOk(c, addrs, k, ch[i - 1], sc[i - 1]);
        }
      } else {
        forall i | 0 <= i < MAXADDR ensures SlotOk(c, addrs, k + 1, chosen[i], scores[i]) {
          assert SlotOk(c, addrs, k, ch[i], sc[i]);
        }
      }
    }
    assert addrs[..|addrs|] == addrs;
    choice := chosen[..];
    r := scores[0];
    assert SlotOk(c, addrs, |addrs|, choice[0], scores[..][0]);
    assert forall i | 0 <= i < MAXADDR :: SlotOk(c, addrs, |addrs|, choice[i], scores[..][i]);
    cache := Stamp(c, addrs, choice);
    if score >= TIMEOUT {
      FirstAlive(c, addrs, score);
    }
  }

  /** Address `a` is in one of the first `n` slots. */
  ghost predicate Elected(addrs: seq<Addr>, choice: seq<Option<nat>>, n: nat, a: Addr) {
    exists i | 0 <= i < n && i < |choice| && choice[i].Some? && choice[i].value < |addrs| :: addrs[choice[i].value] == a
  }

  method Stamp(c: Context, addrs: seq<Addr>, choice: seq<Option<nat>>) returns (cache: map<Addr, Rtt>)
    requires |choice| == MAXADDR
    requires forall i | 0 <= i < MAXADDR && choice[i].Some? :: choice[i].value < |addrs|
    ensures cache.Keys == c.cache.Keys && forall a | a in cache ::
      cache[a] == if Due(c, a) && Elected(addrs, choice, MAXADDR, a) then c.cache[a].(tout := c.now) else c.cache[a]
  {
    cache := c.cache;
    for i := 0 to MAXADDR
      invariant cache.Keys == c.cache.Keys
      invariant forall a | a in cache ::
        cache[a] == if Due(c, a) && Elected(addrs, choice, i, a) then c.cache[a].(tout := c.now) else c.cache[a]
    {
      ghost var before := cache;
      if choice[i].Some? {
        var a := addrs[choice[i].value];
        assert Elected(addrs, choice, i + 1, a);
        if a in cache && cache[a].score >= TIMEOUT && Elapsed(c, cache[a]) > c.interval {
          cache := cache[a := cache[a].(tout := c.now)];
        }
        forall b | b in cache && b != a ensures Elected(addrs, choice, i + 1, b) <==> Elected(addrs, choice, i, b) {
        }
      }
    }
  }

  // Keeping the measurements

  datatype Mode = Update | UpdateNoReset | Reset | Add | Max

  function Limit(score: nat): (r: nat)
    ensures r <= MAX_SCORE && r <= score
  {
    if score > MAX_SCORE then MAX_SCORE else score
  }

  /** The score after a measurement; `held` is the present one, if there is one. */
  function NewScore(held: Option<nat>, measured: nat, mode: Mode): (r: nat)
    ensures r <= MAX_SCORE
  {
    var score := if measured <= GLUED then GLUED + 1 else measured;
    var cur := if held.Some? then held.value else 0;
    match if held.None? && mode != UpdateNoReset then Reset else mode
    case Update => Limit((cur + score) / 2)
    case UpdateNoReset => Limit((cur + score) / 2)
    case Reset => Limit(score)
    case Add => Limit(if cur + score < MAX_SCORE - 1 then cur + score else MAX_SCORE - 1)
    case Max => Limit(if cur > score then cur else score)
  }

  /** A server that does not answer is marked as timed out by two reports in a row at the latest, whatever its
      history and whichever way they are averaged in, and further ones keep it there. */
  lemma {:induction false} DeadStaysDead(held: Option<nat>, modes: seq<Mode>)
    requires forall i | 0 <= i < |modes| :: modes[i] == Update || modes[i] == UpdateNoReset
    ensures |modes| >= 2 ==> Reported(held, modes).Some? && Reported(held, modes).value >= TIMEOUT
    ensures |modes| >= 1 ==> Reported(held, modes).Some? && Reported(held, modes).value >= DEAD / 2
  {
    if |modes| >= 1 {
      DeadStaysDead(held, modes[..|modes| - 1]);
    }
  }

  /** One report marks a server exactly when it is unknown and the score starts afresh, or was bad enough before. */
  lemma OneReport(held: Option<nat>, mode: Mode)
    requires mode == Update || mode == UpdateNoReset
    ensures NewScore(held, DEAD, mode) >= TIMEOUT <==>
      if held.None? then mode == Update else held.value >= 2 * TIMEOUT - DEAD
  {
  }

  /** Of the reports the daemon makes about an unknown server, the second one marks it and no earlier one. */
  lemma UnknownTakesTwo()
    ensures NewScore(None, DEAD, UpdateNoReset) < TIMEOUT
    ensures NewScore(Some(NewScore(None, DEAD, UpdateNoReset)), DEAD, UpdateNoReset) >= TIMEOUT
  {
    OneReport(None, UpdateNoReset);
    OneReport(Some(NewScore(None, DEAD, UpdateNoReset)), UpdateNoReset);
  }

  /** What is known of a server after reports that all say it is dead. */
  function Reported(held: Option<nat>, modes: seq<Mode>): Option<nat> {
    if modes == [] then held
    else Some(NewScore(Reported(held, modes[..|modes| - 1]), DEAD, modes[|modes| - 1]))
  }

  class RttCache {
    var entries: map<Addr, Rtt>

    ghost predicate Valid()
      reads this
    {
      forall a | a in entries :: entries[a].score <= MAX_SCORE
    }

    constructor ()
      ensures Valid() && entries == map[]
    {
      entries := map[];
    }

    /** Records a measurement.  `room` is whether the cache has a place for a new address; `evicted` are addresses
        it gives up for that. */
    method UpdateRtt(a: Addr, measured: nat, mode: Mode, now: nat, room: bool, evicted: set<Addr>)
      requires Valid() && a !in evicted
      requires measured + MAX_SCORE <= UINT_MAX
      modifies this
      ensures Valid()
      ensures a !in old(entries) && !room ==> entries == old(entries)
      ensures a in old(entries) || room ==>
        var held := if a in old(entries) then Some(old(entries)[a].score) else None;
        && a in entries && entries[a].score == NewScore(held, measured, mode)
        && entries[a].tout == (
          var was := if held.Some? then held.value else 0;
          if entries[a].score >= TIMEOUT && was < TIMEOUT then now
          else if a in old(entries) then old(entries)[a].tout else 0)
      ensures forall b | b in entries && b != a :: b in old(entries) && entries[b] == old(entries)[b]
    {
      hide NewScore;
      if a !in entries && !room {
        return;
      }
      var held := if a in entries then Some(entries[a].score) else None;
      if a !in entries {
        entries := (entries - evicted)[a := Rtt(0, 0)];
      }
      var cur := entries[a];
      var newScore := NewScore(held, measured, mode);
      var tout := if newScore >= TIMEOUT && cur.score < TIMEOUT then now else cur.tout;
      entries := entries[a := Rtt(newScore, tout)];
    }
  }

  // Sorting the addresses of a forwarding target

  ghost predicate SortedTo(scores: seq<nat>, i: int, count: int)
    requires 0 <= i <= count <= |scores|
  {
    forall x, y | 0 <= x < i && x < y < count :: scores[x] <= scores[y]
  }

  function Zip(scores: seq<nat>, addrs: seq<Addr>, count: nat): (z: seq<(nat, Addr)>)
    requires count <= |scores| && count <= |addrs|
    ensures |z| == count && forall i | 0 <= i < count :: z[i] == (scores[i], addrs[i])
  {
    seq(count, i requires 0 <= i < count => (scores[i], addrs[i]))
  }

  lemma ZipSwap(z: seq<(nat, Addr)>, i: nat, j: nat)
    requires i < |z| && j < |z|
    ensures multiset(z[i := z[j]][j := z[i]]) == multiset(z)
  {
  }

  /** Selection sort of addresses by their scores. */
  method SelectSort(scores: array<nat>, addrs: array<Addr>, count: nat)
    requires count <= scores.Length && count <= addrs.Length
    modifies scores, addrs
    ensures SortedTo(scores[..], count, count)
    ensures multiset(Zip(scores[..], addrs[..], count)) == multiset(old(Zip(scores[..], addrs[..], count)))
    ensures scores[count..] == old(scores[count..]) && addrs[count..] == old(addrs[count..])
  {
    ghost var z := Zip(scores[..], addrs[..], count);
    var i := 0;
    while i + 1 < count
      invariant 0 <= i <= count
      invariant SortedTo(scores[..], i, count)
      invariant multiset(Zip(scores[..], addrs[..], count)) == multiset(z)
      invariant scores[count..] == old(scores[count..]) && addrs[count..] == old(addrs[count..])
    {
      var min := i;
      for j := i + 1 to count
        invariant i <= min < count && forall x | i <= x < j :: scores[min] <= scores[x]
      {
        if scores[j] < scores[min] {
          min := j;
        }
      }
      SwapBoth(scores, addrs, count, i, min);
      i := i + 1;
    }
  }

  method SwapBoth(scores: array<nat>, addrs: array<Addr>, count: nat, i: nat, min: nat)
    requires i <= min < count <= scores.Length && count <= addrs.Length
    requires SortedTo(scores[..], i, count) && forall x | i <= x < count :: scores[min] <= scores[x]
    modifies scores, addrs
    ensures SortedTo(scores[..], i + 1, count)
    ensures multiset(Zip(scores[..], addrs[..], count)) == multiset(old(Zip(scores[..], addrs[..], count)))
    ensures scores[count..] == old(scores[count..]) && addrs[count..] == old(addrs[count..])
  {
    hide SortedTo;
    hide Zip;
    ghost var s, d := scores[..], addrs[..];
    if min != i {
      scores[min], scores[i] := scores[i], scores[min];
      addrs[min], addrs[i] := addrs[i], addrs[min];
    }
    assert scores[..] == s[i := s[min]][min := s[i]];
    assert addrs[..] == d[i := d[min]][min := d[i]];
    ZipSwapped(s, scores[..], d, addrs[..], i, min, count);
    SwapSorted(s, scores[..], i, min, count);
    assert scores[count..] == s[count..] && addrs[count..] == d[count..];
  }

  lemma ZipSwapped(s: seq<nat>, t: seq<nat>, d: seq<Addr>, e: seq<Addr>, i: nat, min: nat, count: nat)
    requires i < count <= |s| && min < count <= |d|
    requires t == s[i := s[min]][min := s[i]] && e == d[i := d[min]][min := d[i]]
    ensures multiset(Zip(t, e, count)) == multiset(Zip(s, d, count))
  {
    var z := Zip(s, d, count);
    ZipSwap(z, i, min);
    assert Zip(t, e, count) == z[i := z[min]][min := z[i]];
  }

  lemma SwapSorted(s: seq<nat>, t: seq<nat>, i: nat, min: nat, count: nat)
    requires i <= min < count <= |s| && t == s[i := s[min]][min := s[i]]
    requires SortedTo(s, i, count) && forall x | i <= x < count :: s[min] <= s[x]
    ensures SortedTo(t, i + 1, count)
  {
    forall x, y | 0 <= x < i + 1 && x < y < count ensures t[x] <= t[y] {
      var y' := if y == i then min else if y == min then i else y;
      assert t[y] == s[y'];
      if x < i {
        assert t[x] == s[x] && x < y';
      }
    }
  }
}
