/** Facts about single updates that the worker's callbacks rely on. */
module WorkerFacts {
  import opened Prelude
  import opened Sums
  import opened WorkerState
  import opened WorkerMoves
  import opened WorkerLeads
  import opened WorkerFrames
  import opened WorkerClients
  import opened WorkerUpstream
  import opened WorkerOrder

  ghost function Expiring(q: seq<(nat, TaskId)>): multiset<TaskId> {
    if q == [] then multiset{} else Expiring(q[1..]) + multiset{q[0].1}
  }

  lemma ExpiringFirst(q: seq<(nat, TaskId)>)
    requires q != []
    ensures Expiring(q) == Expiring(q[1..]) + multiset{q[0].1}
  {
  }

  lemma {:induction false} ExpiringPush(q: seq<(nat, TaskId)>, k: nat, t: TaskId)
    ensures Expiring(q + [(k, t)]) == Expiring(q) + multiset{t}
  {
    if q == [] {
      assert (q + [(k, t)])[1..] == [];
    } else {
      ExpiringPush(q[1..], k, t);
      assert (q + [(k, t)])[1..] == q[1..] + [(k, t)];
    }
  }

  ghost predicate NoRepeats(q: seq<(nat, TaskId)>) {
    forall i, j | 0 <= i < j < |q| :: q[i].0 != q[j].0
  }

  lemma RestNoRepeats(q: seq<(nat, TaskId)>)
    requires q != [] && NoRepeats(q)
    ensures NoRepeats(q[1..])
  {
  }

  /** The listed pairs are still in the table, unless the session was emptied, closed and forgotten. */
  ghost predicate StillListed(st: State, s: SessId, q: seq<(nat, TaskId)>)
    requires s in st.sessions
  {
    || (forall p | p in q :: p.0 in st.sessions[s].tasks && st.sessions[s].tasks[p.0] == p.1)
    || (st.sessions[s].closing && st.sessions[s].tasks == map[] && Unregistered(st, s))
  }

  /** The pairs taken so far from a table of which the keys in rest are still to be looked at: those of late tasks. */
  ghost predicate Collected(table: map<nat, TaskId>, late: set<TaskId>, rest: set<nat>, q: seq<(nat, TaskId)>) {
    && NoRepeats(q)
    && (forall p | p in q :: p.0 !in rest && p.0 in table && table[p.0] == p.1 && p.1 in late)
    && (forall k | k in table && k !in rest && table[k] in late :: (k, table[k]) in q)
  }

  lemma CollectedNone(table: map<nat, TaskId>, late: set<TaskId>)
    ensures Collected(table, late, table.Keys, []) && Expiring([]) == multiset{}
  {
  }

  lemma CollectedOne(table: map<nat, TaskId>, late: set<TaskId>, rest: set<nat>, q: seq<(nat, TaskId)>, k: nat)
    requires k in rest && k in table && Collected(table, late, rest, q)
    ensures table[k] !in late ==> Collected(table, late, rest - {k}, q)
    ensures table[k] in late ==> Collected(table, late, rest - {k}, q + [(k, table[k])])
    ensures Expiring(q + [(k, table[k])]) == Expiring(q) + multiset{table[k]}
  {
    ExpiringPush(q, k, table[k]);
    var r := q + [(k, table[k])];
    assert r[|q|] == (k, table[k]);
    forall i | i in table && i !in rest - {k} && table[i] in late ensures (i, table[i]) in r {
      assert i == k || (i, table[i]) in q;
    }
  }

  lemma CollectedListed(st: State, late: set<TaskId>, s: SessId, q: seq<(nat, TaskId)>)
    requires s in st.sessions && Collected(st.sessions[s].tasks, late, {}, q)
    ensures NoRepeats(q) && StillListed(st, s, q)
  {
  }

  /** Once every collected task is over, so is every late task of the table. */
  lemma CollectedOver(st: State, table: map<nat, TaskId>, late: set<TaskId>, q: seq<(nat, TaskId)>)
    requires Collected(table, late, {}, q) && forall i | 0 <= i < |q| :: Over(st, q[i].1)
    ensures LateOver(st, table, late)
  {
    forall k | k in table && table[k] in late ensures Over(st, table[k]) {
      assert (k, table[k]) in q;
    }
  }

  ghost predicate LateOver(st: State, table: map<nat, TaskId>, late: set<TaskId>) {
    forall k | k in table && table[k] in late :: Over(st, table[k])
  }

  lemma LateNone(st: State, late: set<TaskId>)
    ensures LateOver(st, map[], late)
  {
  }

  lemma LateOverLasts(a: State, b: State, table: map<nat, TaskId>, late: set<TaskId>)
    requires LateOver(a, table, late) && Lasts(a, b)
    ensures LateOver(b, table, late)
  {
    forall k | k in table && table[k] in late ensures Over(b, table[k]) {
      OverLasts(a, b, table[k]);
    }
  }

  lemma RefSessions(st: State, t: TaskId)
    requires t in st.tasks
    ensures Ref(st, t).sessions == st.sessions
    ensures Ref(st, t).tcpWaiting == st.tcpWaiting && Ref(st, t).tcpConnected == st.tcpConnected
  {
  }

  lemma ListedKey(st: State, c: Stack, s: SessId, k: nat, t: TaskId, rest: seq<(nat, TaskId)>)
    requires Inv(st, c) && s in st.sessions && st.sessions[s].outgoing && t in st.tasks && StillListed(st, s, [(k, t)] + rest)
    ensures st.tasks[t].msgid in st.sessions[s].tasks ==> st.tasks[t].msgid == k && st.sessions[s].tasks[k] == t
  {
    hide Inv, Placed;
    if st.tasks[t].msgid in st.sessions[s].tasks {
      assert ([(k, t)] + rest)[0] == (k, t);
      EntryAlive(st, c, s, k);
    }
  }

  lemma TakenListed(a: State, b: State, s: SessId, k: nat, t: TaskId, rest: seq<(nat, TaskId)>)
    requires s in a.sessions && StillListed(a, s, [(k, t)] + rest) && NoRepeats([(k, t)] + rest)
    requires b == a || b == TableTake(a, s, k)
    ensures StillListed(b, s, rest)
  {
    var q := [(k, t)] + rest;
    SameUnregistered(a, b, s);
    forall p | p in rest ensures p in q && p.0 != k {
      var i :| 0 <= i < |rest| && rest[i] == p;
      assert q[i + 1] == p && q[0].0 == k;
    }
    assert a.sessions[s].tasks == map[] ==> b.sessions[s].tasks == map[];
  }

  lemma FrameListed(a: State, b: State, s: SessId, rest: seq<(nat, TaskId)>)
    requires Frame(a, b, {}) && s in a.sessions && a.sessions[s].outgoing && a.sessions[s].tcp && StillListed(a, s, rest)
    ensures s in b.sessions && SameShape(a.sessions[s], b.sessions[s]) && b.sessions[s].connecting == a.sessions[s].connecting
    ensures StillListed(b, s, rest)
  {
    assert KeptSession(a, b, s);
  }

  lemma SameListed(a: State, b: State, s: SessId, rest: seq<(nat, TaskId)>)
    requires s in a.sessions && s in b.sessions && b.sessions[s] == a.sessions[s] && StillListed(a, s, rest)
    requires b.tcpWaiting == a.tcpWaiting && b.tcpConnected == a.tcpConnected
    ensures StillListed(b, s, rest)
  {
    SameUnregistered(a, b, s);
  }

  lemma KeepsShape(st: State, s: SessId, k: nat)
    requires s in st.sessions
    ensures SameShape(st.sessions[s], TableTake(st, s, k).sessions[s])
  {
  }

  lemma ShapeThen(a: State, b: State, d: State, s: SessId)
    requires s in a.sessions && s in b.sessions && s in d.sessions
    requires SameShape(a.sessions[s], b.sessions[s]) && SameShape(b.sessions[s], d.sessions[s])
    ensures SameShape(a.sessions[s], d.sessions[s])
  {
  }

  lemma ShapeFramed(a: State, b: State, busy: set<TaskId>, s: SessId)
    requires Frame(a, b, busy) && s in a.sessions
    ensures s in b.sessions && SameShape(a.sessions[s], b.sessions[s])
  {
    assert KeptSession(a, b, s);
  }

  lemma CreateShape(st: State, source: Option<SessId>)
    ensures var n := Create(st, source); st.next in n.tasks && !n.tasks[st.next].finished && n.tasks[st.next].source == source
  {
  }

  /** A new task without a client is nowhere to be found but in its request. */
  lemma MoorNew(st: State, c: Stack, t: TaskId)
    requires Inv(st, c.(adrift := c.adrift + {t})) && t !in c.adrift && t in st.tasks && st.tasks[t].source == None
    ensures Inv(st, c)
  {
    hide Inv;
    Moor(st, c.(adrift := c.adrift + {t}), t);
    assert c.(adrift := c.adrift + {t}).(adrift := c.adrift + {t} - {t}) == c;
  }

  /** A new task of client `s`, listed in the client's table when it is a TCP one. */
  function Registered(st: State, s: SessId): State
    requires s in st.sessions
  {
    var n := Create(st, Some(s));
    if st.sessions[s].tcp then TablePut(Ref(n, st.next), s, st.next, st.next) else n
  }

  lemma RegisteredShape(st: State, s: SessId)
    requires s in st.sessions
    ensures st.next in Registered(st, s).tasks && !Registered(st, s).tasks[st.next].finished
  {
  }

  lemma RegisteredInv(st: State, c: Stack, s: SessId)
    requires Inv(st, c) && c == Stack(multiset{}, {}, {}, {}) && s in st.sessions && !st.sessions[s].outgoing
    ensures Inv(Registered(st, s), c) && Placed(Registered(st, s), st.next) == 0
  {
    hide Inv, Placed, Stored;
    var t := st.next;
    var n := Create(st, Some(s));
    var c1 := c.(adrift := c.adrift + {t});
    CreateInv(st, c, Some(s));
    if st.sessions[s].tcp {
      var c2 := c1.(held := c1.held + multiset{t});
      RefInv(n, c1, t);
      FreshClient(st, c, s);
      ClientUnregistered(st, c, s);
      TablePutInv(Ref(n, t), c2, s, t, t);
      assert c2.(held := c2.held - multiset{t}) == c1;
      TaskSums(n, t, Ref(n, t).tasks[t]);
      SessSums(Ref(n, t), s, Registered(st, s).sessions[s]);
    }
    RegisteredMoor(st, s);
    Moor(Registered(st, s), c1, t);
    assert c1.(adrift := c1.adrift - {t}) == c;
  }

  /** A query on a session that is already closed is a stray. */
  lemma RegisteredOrderly(st: State, c: Stack, s: SessId, lost: set<TaskId>, strays: set<(SessId, TaskId)>)
    requires Inv(st, c) && Orderly(st, lost, strays) && s in st.sessions && !st.sessions[s].outgoing
    ensures
      var late := if st.sessions[s].tcp && st.sessions[s].closing then {(s, st.next)} else {};
      Orderly(Registered(st, s), lost + {st.next}, strays + late)
  {
    hide Inv, Well, Orderly, Stored, Placed;
    var t := st.next;
    var n := Create(st, Some(s));
    CreateWell(st, c, Some(s));
    OrderlyBut(st, n, lost, strays, {t});
    if st.sessions[s].tcp {
      var b := Ref(n, t);
      TaskWell(n, t, b.tasks[t]);
      OrderlyWell(n, b, lost + {t}, strays);
      OrderlyPut(b, s, t, lost + {t}, strays);
    } else {
      assert strays + {} == strays;
    }
  }

  lemma OrderlyPut(b: State, s: SessId, t: TaskId, lost: set<TaskId>, strays: set<(SessId, TaskId)>)
    requires Orderly(b, lost, strays) && s in b.sessions && !b.sessions[s].outgoing
    ensures Orderly(TablePut(b, s, t, t), lost, strays + if b.sessions[s].closing then {(s, t)} else {})
  {
    hide Placed, Stored;
    var d := TablePut(b, s, t, t);
    SessSums(b, s, d.sessions[s]);
    forall r | r in d.sessions ensures Tended(d, r, strays + if b.sessions[s].closing then {(s, t)} else {}) {
      assert Tended(b, r, strays);
    }
    forall u | u in d.tasks && u !in lost ensures Engaged(d, u) {
      assert Engaged(b, u);
    }
  }

  lemma RegisteredMoor(st: State, s: SessId)
    requires s in st.sessions && !st.sessions[s].outgoing
    ensures var n := Registered(st, s); SourceOk(n, Stack(multiset{}, {}, {}, {}), st.next, n.tasks[st.next])
  {
  }

  lemma FreshClient(st: State, c: Stack, s: SessId)
    requires Inv(st, c) && s in st.sessions && !st.sessions[s].outgoing
    ensures st.next !in st.sessions[s].tasks
  {
    hide Inv;
    if st.next in st.sessions[s].tasks {
      ClientKey(st, c, s, st.next);
      FreshTask2(st, c);
    }
  }

  lemma FreshTask2(st: State, c: Stack)
    requires Inv(st, c)
    ensures st.next !in st.tasks
  {
    hide RefsOk, TasksOk, SessionsOk, LeadersOk, MapsOk;
    FreshTask(st);
  }

  /** A task listed by a UDP session is unfinished and driven by nobody. */
  lemma UdpEntry(st: State, c: Stack, s: SessId, k: nat)
    requires Inv(st, c) && s in st.sessions && st.sessions[s].outgoing && !st.sessions[s].tcp && k in st.sessions[s].tasks
    ensures var t := st.sessions[s].tasks[k];
            t in st.tasks && !st.tasks[t].finished && st.tasks[t].primary && Placed(st, t) == 0
  {
    hide RefsOk, LeadersOk, MapsOk, CountsOk, PendingOk, SourceOk, Placed;
    assert SessOk(st, s, st.sessions[s]);
    assert EntryOk(st, s, st.sessions[s], k);
    var t := st.sessions[s].tasks[k];
    assert TaskOk(st, c, t, st.tasks[t]);
  }

  lemma TakePlaced(st: State, s: SessId, k: nat)
    requires s in st.sessions && !st.sessions[s].tcp
    ensures forall u: TaskId :: Placed(TableTake(st, s, k), u) == Placed(st, u)
  {
    hide Placed, Stored;
    SessSums(st, s, TableTake(st, s, k).sessions[s]);
    UdpPlaces(st.sessions[s], TableTake(st, s, k).sessions[s]);
  }

  /** Dropping a reference frees the task exactly when it was the last one. */
  lemma LastRef(st: State, c: Stack, t: TaskId)
    requires Inv(st, c) && t in c.held && t in st.tasks
    ensures t in Unref(st, t).tasks <==> st.tasks[t].refs > 1
    ensures t in Unref(st, t).tasks ==> Unref(st, t).tasks[t] == st.tasks[t].(refs := st.tasks[t].refs - 1)
    ensures forall u: TaskId :: Placed(Unref(st, t), u) == Placed(st, u)
  {
    hide Inv, Placed, Stored, Holders;
    At(st, c, t);
    QuietUnref(st, c, t);
  }

  lemma WriteAt(st: State, c: Stack, w: nat)
    requires Inv(st, c) && w in st.writes
    ensures WriteOk(st, st.writes[w])
  {
    hide RefsOk, TasksOk, LeadersOk, MapsOk, CountsOk;
  }

  /** An upstream session in neither map is left alone by nested calls. */
  lemma LeftAlone(a: State, b: State, busy: set<TaskId>, s: SessId)
    requires Frame(a, b, busy) && s in a.sessions && a.sessions[s].outgoing && a.sessions[s].tcp && Unregistered(a, s)
    ensures s in b.sessions && b.sessions[s] == a.sessions[s] && Unregistered(b, s)
  {
    assert KeptSession(a, b, s);
  }

  lemma FreeAgain(st: State, c: Stack, t: TaskId)
    requires t in st.tasks && Placed(st, t) == 0 && t !in c.busy && st.tasks[t].pending == [] && !st.tasks[t].leading
    ensures Free(st, c, t)
  {
  }

  lemma CancelMaps(st: State, s: SessId, k: nat)
    requires s in st.sessions && (k in st.sessions[s].tasks ==> st.sessions[s].tasks[k] in st.tasks)
    ensures Cancelled(st, s, k).tcpWaiting == st.tcpWaiting && Cancelled(st, s, k).tcpConnected == st.tcpConnected
    ensures Cancelled(st, s, k).writes == st.writes
  {
  }

  lemma CancelPlaced(st: State, c: Stack, s: SessId, k: nat, t: TaskId)
    requires Inv(st, c) && s in st.sessions && st.sessions[s].outgoing && st.sessions[s].tcp
    requires k in st.sessions[s].tasks ==> st.sessions[s].tasks[k] in st.tasks
    ensures Placed(Cancelled(st, s, k), t) <= Placed(st, t)
  {
    hide Inv, Placed, Stored, Listed, Unref, Balanced;
    if k in st.sessions[s].tasks {
      var b := TableTake(st, s, k);
      var u := st.sessions[s].tasks[k];
      var c1 := c.(held := c.held + multiset{u});
      TableTakeInv(st, c, s, k);
      TakeBalance(c, st.sessions[s], k);
      SessSums(st, s, b.sessions[s]);
      QuietUnref(b, c1, u);
      QuietKeys(b, Unref(b, u), {});
    }
  }

  lemma ConnectingAt(st: State, c: Stack, s: SessId)
    requires Inv(st, c) && s in st.sessions && st.sessions[s].connecting
    ensures OpenTo(st, s, st.sessions[s].peer) && st.sessions[s].tasks == map[]
    ensures forall a | a in st.tcpConnected :: st.tcpConnected[a] != s
    ensures forall a | a in st.tcpWaiting && st.tcpWaiting[a] == s :: a == st.sessions[s].peer
  {
    hide RefsOk, TasksOk, LeadersOk, CountsOk;
    assert SessOk(st, s, st.sessions[s]);
  }

  lemma ConnectingUnregistered(st: State, s: SessId)
    requires s in st.sessions
    requires forall a | a in st.tcpConnected :: st.tcpConnected[a] != s
    requires forall a | a in st.tcpWaiting :: st.tcpWaiting[a] != s
    ensures Unregistered(st, s)
  {
  }

  /** After its own address is deleted, a session is not waiting. */
  lemma NotWaiting(st: State, c: Stack, s: SessId)
    requires Inv(st, c) && s in st.sessions && st.sessions[s].peer !in st.tcpWaiting
    ensures forall a | a in st.tcpWaiting :: st.tcpWaiting[a] != s
  {
    hide RefsOk, TasksOk, SessionsOk, LeadersOk, CountsOk;
  }

  lemma SameNotWaited(a: State, b: State, s: SessId)
    requires b.tcpWaiting == a.tcpWaiting
    ensures NotWaited(a, s) == NotWaited(b, s)
  {
  }

  lemma NowNotWaited(st: State, s: SessId)
    requires forall a | a in st.tcpWaiting :: st.tcpWaiting[a] != s
    ensures NotWaited(st, s)
  {
  }

  lemma DroppedNotWaited(st: State, s: SessId)
    requires Unregistered(st, s)
    ensures NotWaited(st, s)
  {
  }

  lemma OneMore<V>(m: map<nat, V>, k: nat, v: V)
    requires k !in m
    ensures |m[k := v]| == |m| + 1
  {
    assert m[k := v].Keys == m.Keys + {k};
  }

  lemma Gone(st: State, c: Stack, s: SessId)
    requires Inv(st, c) && s in st.sessions && st.sessions[s].peer !in st.tcpWaiting && st.sessions[s].peer !in st.tcpConnected
    ensures Unregistered(st, s)
  {
    hide RefsOk, TasksOk, SessionsOk, LeadersOk, CountsOk;
  }

  lemma WaitingAt(st: State, c: Stack, a: Addr)
    requires Inv(st, c) && a in st.tcpWaiting
    ensures OpenTo(st, st.tcpWaiting[a], a) && a !in st.tcpConnected && !Unregistered(st, st.tcpWaiting[a])
    ensures st.sessions[st.tcpWaiting[a]].tasks == map[]
  {
    hide RefsOk, TasksOk, SessionsOk, LeadersOk, CountsOk;
  }

  lemma ConnectedAt(st: State, c: Stack, a: Addr)
    requires Inv(st, c) && a in st.tcpConnected
    ensures OpenTo(st, st.tcpConnected[a], a) && !st.sessions[st.tcpConnected[a]].connecting && a !in st.tcpWaiting
    ensures !Unregistered(st, st.tcpConnected[a])
    ensures forall b | b in st.tcpWaiting :: st.tcpWaiting[b] != st.tcpConnected[a]
  {
    hide RefsOk, TasksOk, SessionsOk, LeadersOk, CountsOk;
  }

  lemma RewritePlaced(st: State, t: TaskId, key: Option<Key>, msgid: nat)
    requires t in st.tasks
    ensures Placed(Rewrite(st, t, key, msgid), t) == Placed(st, t)
  {
    hide Placed, Stored;
    TaskSums(st, t, Rewrite(st, t, key, msgid).tasks[t]);
  }

  lemma TaskDriven(a: State, b: State, busy: set<TaskId>, t: TaskId)
    requires Frame(a, b, busy) && t in busy && t in a.tasks
    ensures t in b.tasks && SameDriven(a.tasks[t], b.tasks[t])
  {
  }

  lemma PopFrame(st: State, t: TaskId, busy: set<TaskId>)
    requires t in st.tasks && st.tasks[t].waiting != [] && t !in busy
    ensures Frame(st, FollowerPop(st, t), busy)
  {
    FrameGrow(st, FollowerPop(st, t), busy);
  }

  lemma UnleadFrame(a: State, d: State, busy: set<TaskId>, t: TaskId)
    requires Frame(a, d, busy) && t in d.tasks && t !in busy
    ensures Frame(a, MarkLeading(d, t, false), busy)
  {
    FrameGrow(d, MarkLeading(d, t, false), busy);
    FrameTrans(a, d, MarkLeading(d, t, false), busy);
  }

  lemma PlacedUnlead(st: State, t: TaskId)
    requires t in st.tasks
    ensures Placed(MarkLeading(st, t, false), t) == Placed(st, t)
  {
    hide Placed, Stored;
    TaskSums(st, t, MarkLeading(st, t, false).tasks[t]);
  }

  lemma DelistFrame(st: State, k: Key, busy: set<TaskId>)
    ensures Frame(st, Delist(st, k), busy)
  {
    FrameGrow(st, Delist(st, k), busy);
  }

  lemma KillingTask(a: State, b: State, t: TaskId)
    requires Killing(a, b, t)
    ensures t in a.tasks && t in b.tasks
    ensures b.tasks[t] == a.tasks[t].(pending := b.tasks[t].pending, refs := b.tasks[t].refs)
    ensures Placed(b, t) == Placed(a, t)
  {
  }

  lemma KillingAlive(a: State, b: State, t: TaskId)
    requires Killing(a, b, t)
    ensures t in b.tasks
  {
  }

  lemma LeaderAt(st: State, c: Stack, k: Key)
    requires Inv(st, c) && k in st.subreqOut
    ensures st.subreqOut[k] in st.tasks && st.tasks[st.subreqOut[k]].leading && st.subreqOut[k] !in c.busy
  {
    hide RefsOk, TasksOk, SessionsOk, MapsOk, CountsOk;
  }

  lemma FollowFrame(a: State, c: Stack, l: TaskId, t: TaskId)
    requires t in a.tasks && l in a.tasks && t !in c.busy && l !in c.busy
    ensures Frame(a, FollowerPush(Ref(a, t), l, t), c.busy)
  {
    FrameGrow(a, FollowerPush(Ref(a, t), l, t), c.busy);
  }

  lemma LeadFrame(a: State, c: Stack, t: TaskId, k: Key)
    requires t in a.tasks && t !in c.busy
    ensures Frame(a, Enlist(MarkLeading(a, t, true), t, k), c.busy)
  {
    FrameGrow(a, Enlist(MarkLeading(a, t, true), t, k), c.busy);
  }

  lemma ShapeKept(a: State, b: State, busy: set<TaskId>, s: SessId)
    requires FrameBut(a, b, busy, s) && s in a.sessions
    ensures s in b.sessions && SameShape(a.sessions[s], b.sessions[s]) && b.sessions[s].connecting == a.sessions[s].connecting
  {
  }

  lemma ButMaps(a: State, b: State, busy: set<TaskId>, s: SessId)
    requires b == a.(tcpWaiting := b.tcpWaiting, tcpConnected := b.tcpConnected)
    requires forall r | r in a.sessions && Unregistered(a, r) :: Unregistered(b, r)
    ensures FrameBut(a, b, busy, s)
  {
  }

  lemma DropUnregisters(st: State, c: Stack, s: SessId)
    requires Inv(st, c) && s in st.sessions && forall a | a in st.tcpWaiting :: st.tcpWaiting[a] != s
    ensures Unregistered(DelConnected(st, st.sessions[s].peer), s)
    ensures forall r | r in st.sessions && Unregistered(st, r) :: Unregistered(DelConnected(st, st.sessions[s].peer), r)
  {
    hide RefsOk, TasksOk, SessionsOk, LeadersOk, CountsOk;
  }

  lemma FreeAt(st: State, c: Stack, t: TaskId)
    requires Free(st, c, t)
    ensures t in st.tasks && Placed(st, t) == 0 && t !in c.busy && st.tasks[t].pending == [] && !st.tasks[t].leading
  {
  }

  lemma StillFree(a: State, b: State, c: Stack, t: TaskId)
    requires Free(a, c, t) && t in b.tasks && SameCore(a.tasks[t], b.tasks[t]) && Placed(b, t) == Placed(a, t)
    ensures Free(b, c, t)
  {
  }

  lemma RewriteFree(st: State, c: Stack, t: TaskId, key: Option<Key>, msgid: nat)
    requires Free(st, c, t)
    ensures Free(Rewrite(st, t, key, msgid), c, t)
  {
    hide Placed, Stored;
    TaskSums(st, t, Rewrite(st, t, key, msgid).tasks[t]);
  }

  lemma UnrefOther(st: State, u: TaskId, t: TaskId)
    requires u in st.tasks && t != u && t in st.tasks
    ensures t in Unref(st, u).tasks && Unref(st, u).tasks[t] == st.tasks[t]
  {
  }

  lemma DetachOther(st: State, u: TaskId, t: TaskId)
    requires u in st.tasks && st.tasks[u].source.Some? && t != u && t in st.tasks
    ensures t in Detached(st, u).tasks && Detached(st, u).tasks[t] == st.tasks[t]
  {
    hide Unref;
    var s := st.tasks[u].source.value;
    if s in st.sessions && u in st.sessions[s].tasks {
      var d := Unlisted(st, u);
      assert t in d.tasks && d.tasks[t] == st.tasks[t];
      UnrefOther(d, u, t);
    }
  }

  lemma Smaller<V>(m: map<nat, V>, k: nat)
    requires k in m
    ensures |m - {k}| < |m|
  {
    assert m.Keys == (m - {k}).Keys + {k};
  }

  lemma FinishedStays(a: State, b: State, c: Stack, t: TaskId)
    requires Quiet(a, b, {}) && t in a.tasks && t in c.held && Inv(b, c)
    ensures t in b.tasks && SameDriven(a.tasks[t], b.tasks[t])
  {
    hide Placed;
    HeldAlive(b, c, t);
  }

  lemma MoorSettled(st: State, c: Stack, t: TaskId)
    requires Inv(st, c) && Settled(st, t)
    ensures Inv(st, c.(adrift := c.adrift - {t}))
  {
    hide Inv;
    Moor(st, c, t);
  }

  lemma SettledUnref(st: State, t: TaskId)
    requires t in st.tasks && Settled(st, t)
    ensures Settled(Unref(st, t), t)
  {
  }

  // ----- what holds between events -----

  function Empty(): State {
    State(map[], map[], map[], map[], map[], map[], 0, 0, 0, {}, multiset{}, multiset{})
  }

  lemma EmptyRefs()
    ensures RefsOk(Empty(), Stack(multiset{}, {}, {}, {}))
  {
    forall t: TaskId ensures Stored(Empty(), t) == 0 {
      var e := Empty();
      assert Sum(e.tasks, Followers, t) == 0 && Sum(e.sessions, Listed, t) == 0 && Sum(e.writes, InFlight, t) == 0;
    }
  }

  lemma EmptyRest(st: State, c: Stack)
    requires st == Empty() && c == Stack(multiset{}, {}, {}, {})
    ensures TasksOk(st, c) && SessionsOk(st) && LeadersOk(st, c) && MapsOk(st) && LivesOk(st)
  {
  }

  lemma EmptyInv()
    ensures Inv(Empty(), Stack(multiset{}, {}, {}, {}))
  {
    hide RefsOk, TasksOk, SessionsOk, LeadersOk, MapsOk, LivesOk;
    EmptyRefs();
    EmptyRest(Empty(), Stack(multiset{}, {}, {}, {}));
    assert forall l: TaskId, f: TaskId :: FollowerCount(Empty(), l, f) == 0;
  }

  /** Everything that names a task names a live one. */
  ghost predicate NoDangling(st: State) {
    && (forall s, k | s in st.sessions && k in st.sessions[s].tasks :: st.sessions[s].tasks[k] in st.tasks)
    && (forall s, i | s in st.sessions && 0 <= i < |st.sessions[s].waiting| :: st.sessions[s].waiting[i] in st.tasks)
    && (forall l, i | l in st.tasks && 0 <= i < |st.tasks[l].waiting| :: st.tasks[l].waiting[i] in st.tasks)
    && (forall w | w in st.writes :: st.writes[w].task in st.tasks)
    && (forall t | t in st.tasks && st.tasks[t].source.Some? :: st.tasks[t].source.value in st.sessions)
  }

  /** A task leads question `k` exactly when the index says so; a leader is unfinished and neither on an
      upstream TCP session nor behind another leader. */
  ghost predicate LeadersExact(st: State) {
    && (forall k: Key, t: TaskId :: k in st.subreqOut && st.subreqOut[k] == t <==> t in st.tasks && st.tasks[t].leading && st.tasks[t].key == Some(k))
    && (forall t | t in st.tasks && st.tasks[t].leading :: !st.tasks[t].finished && Placed(st, t) == 0)
  }

  /** Under a message ID an upstream session lists the one task that was sent with it. */
  ghost predicate IdsSelect(st: State) {
    forall s, k | s in st.sessions && st.sessions[s].outgoing && k in st.sessions[s].tasks ::
      st.sessions[s].tasks[k] in st.tasks && st.tasks[st.sessions[s].tasks[k]].msgid == k
  }

  /** The invariant between events, in the terms of the source. */
  ghost predicate Sound(st: State) {
    && (forall t | t in st.tasks ::
          st.tasks[t].refs == Stored(st, t) + (if st.tasks[t].primary then 1 else 0) && st.tasks[t].refs > 0)
    && NoDangling(st)
    && LeadersExact(st)
    && IdsSelect(st)
    && MapsOk(st)
    && LivesOk(st)
    && FollowersOk(st)
  }

  lemma QueueAlive(st: State, c: Stack, s: SessId, i: nat)
    requires Inv(st, c) && s in st.sessions && i < |st.sessions[s].waiting|
    ensures st.sessions[s].waiting[i] in st.tasks
  {
    hide TasksOk, SessionsOk, LeadersOk, MapsOk, CountsOk;
    var t := st.sessions[s].waiting[i];
    SessSums(st, s, st.sessions[s]);
    assert t in multiset(st.sessions[s].waiting);
    assert Listed(st.sessions[s], t) > 0;
  }

  lemma InvDangling(st: State, c: Stack)
    requires Inv(st, c)
    ensures NoDangling(st)
  {
    hide Inv, Placed, Holders;
    forall s, k | s in st.sessions && k in st.sessions[s].tasks ensures st.sessions[s].tasks[k] in st.tasks {
      EntryAlive(st, c, s, k);
    }
    forall s, i | s in st.sessions && 0 <= i < |st.sessions[s].waiting| ensures st.sessions[s].waiting[i] in st.tasks {
      QueueAlive(st, c, s, i);
    }
    forall l, i | l in st.tasks && 0 <= i < |st.tasks[l].waiting| ensures st.tasks[l].waiting[i] in st.tasks {
      FollowerAlive(st, c, l, st.tasks[l].waiting[i]);
    }
    forall w | w in st.writes ensures st.writes[w].task in st.tasks {
      WriteAt(st, c, w);
    }
    forall t | t in st.tasks && st.tasks[t].source.Some? ensures st.tasks[t].source.value in st.sessions {
      At(st, c, t);
    }
  }

  lemma InvLeaders(st: State)
    requires Inv(st, Stack(multiset{}, {}, {}, {}))
    ensures LeadersExact(st)
  {
    hide RefsOk, SessionsOk, MapsOk, CountsOk, PendingOk, SourceOk, Placed;
    var c := Stack(multiset{}, {}, {}, {});
    forall t | t in st.tasks && st.tasks[t].leading
      ensures !st.tasks[t].finished && Placed(st, t) == 0
      ensures st.tasks[t].key.Some? && st.tasks[t].key.value in st.subreqOut && st.subreqOut[st.tasks[t].key.value] == t
    {
      assert TaskOk(st, c, t, st.tasks[t]);
    }
  }

  lemma InvIds(st: State)
    requires SessionsOk(st)
    ensures IdsSelect(st)
  {
    forall s, k | s in st.sessions && st.sessions[s].outgoing && k in st.sessions[s].tasks
      ensures st.sessions[s].tasks[k] in st.tasks && st.tasks[st.sessions[s].tasks[k]].msgid == k
    {
      assert SessOk(st, s, st.sessions[s]);
      assert EntryOk(st, s, st.sessions[s], k);
    }
  }

  lemma InvSound(st: State)
    requires Inv(st, Stack(multiset{}, {}, {}, {}))
    ensures Sound(st)
  {
    hide TasksOk, SessionsOk, LeadersOk, MapsOk, LivesOk, FollowersOk, NoDangling, LeadersExact, IdsSelect, Stored;
    InvIds(st);
    InvDangling(st, Stack(multiset{}, {}, {}, {}));
    InvLeaders(st);
  }

  lemma FollowEngaged(st: State, l: TaskId, t: TaskId)
    requires t in st.tasks && l in st.tasks
    ensures Engaged(FollowerPush(Ref(st, t), l, t), t)
  {
    var n := FollowerPush(Ref(st, t), l, t);
    assert t in multiset(n.tasks[l].waiting) by {
      assert n.tasks[l].waiting[|n.tasks[l].waiting| - 1] == t;
    }
    SumTake(n.tasks, l, Followers, t);
  }

  lemma LaunchEngaged(a: State, b: State, t: TaskId)
    requires ByLaunch(a, b, t)
    ensures t in b.tasks && b.tasks[t].pending != []
  {
  }

  // ----- which tasks were stepped -----

  /** Between two points of the log the tasks of `m` were stepped, each as often as it is in `m` at least. */
  ghost predicate Stepped(a: seq<TaskId>, b: seq<TaskId>, m: multiset<TaskId>) {
    a <= b && m <= multiset(b[|a|..])
  }

  lemma SteppedNone(a: seq<TaskId>)
    ensures Stepped(a, a, multiset{})
  {
  }

  lemma SteppedOne(a: seq<TaskId>, b: seq<TaskId>, t: TaskId)
    requires a + [t] <= b
    ensures Stepped(a, b, multiset{t})
  {
    assert b[|a|] == t && b[|a|..][0] == t;
  }

  lemma SteppedThen(a: seq<TaskId>, b: seq<TaskId>, d: seq<TaskId>, m: multiset<TaskId>, n: multiset<TaskId>)
    requires Stepped(a, b, m) && Stepped(b, d, n)
    ensures Stepped(a, d, m + n)
  {
    assert d[|a|..] == d[|a|..|b|] + d[|b|..];
    assert d[|a|..|b|] == b[|a|..];
  }

  lemma SteppedWithin(a: seq<TaskId>, b: seq<TaskId>, d: seq<TaskId>, e: seq<TaskId>, m: multiset<TaskId>)
    requires a <= b && Stepped(b, d, m) && d <= e
    ensures Stepped(a, e, m)
  {
    SteppedNone(a);
    assert Stepped(a, b, multiset{}) && Stepped(d, e, multiset{});
    SteppedThen(a, b, d, multiset{}, m);
    SteppedThen(a, d, e, multiset{} + m, multiset{});
    assert multiset{} + m + multiset{} == m;
  }

  /** The tasks of a table that are not in what is left of it were stepped. */
  ghost predicate TableStepped(table: map<nat, TaskId>, left: map<nat, TaskId>, a: seq<TaskId>, b: seq<TaskId>) {
    && (forall k | k in left :: k in table && table[k] == left[k])
    && (forall k | k in table && k !in left :: Stepped(a, b, multiset{table[k]}))
  }

  lemma TableStart(table: map<nat, TaskId>, a: seq<TaskId>)
    ensures TableStepped(table, table, a, a)
  {
  }

  lemma TableNext(table: map<nat, TaskId>, left: map<nat, TaskId>, k: nat, a: seq<TaskId>, b: seq<TaskId>, d: seq<TaskId>)
    requires TableStepped(table, left, a, b) && k in left && a <= b && Stepped(b, d, multiset{left[k]})
    ensures TableStepped(table, left - {k}, a, d)
  {
    hide Stepped;
    SteppedGrows(b, d, multiset{left[k]});
    forall i | i in table && i !in left - {k} ensures Stepped(a, d, multiset{table[i]}) {
      if i == k {
        SteppedWithin(a, b, d, d, multiset{table[i]});
      } else {
        SteppedWithin(a, a, b, d, multiset{table[i]});
      }
    }
  }

  lemma SteppedGrows(a: seq<TaskId>, b: seq<TaskId>, m: multiset<TaskId>)
    requires Stepped(a, b, m)
    ensures a <= b
  {
  }

  lemma TableWithin(table: map<nat, TaskId>, a: seq<TaskId>, b: seq<TaskId>, d: seq<TaskId>)
    requires a <= b <= d && TableStepped(table, map[], b, d)
    ensures TableStepped(table, map[], a, d)
  {
    hide Stepped;
    forall k | k in table ensures Stepped(a, d, multiset{table[k]}) {
      SteppedWithin(a, b, d, d, multiset{table[k]});
    }
  }

  // ----- where a step leaves its task -----

  /** The task is behind the leader of its question. */
  ghost predicate Follows(st: State, t: TaskId) {
    && t in st.tasks && st.tasks[t].key.Some? && st.tasks[t].key.value in st.subreqOut
    && st.subreqOut[st.tasks[t].key.value] in st.tasks && t in st.tasks[st.subreqOut[st.tasks[t].key.value]].waiting
  }

  /** The task awaits datagrams and leads its question, if it has one. */
  ghost predicate Awaits(st: State, t: TaskId) {
    && t in st.tasks && st.tasks[t].pending != []
    && (st.tasks[t].key.Some? ==>
          st.tasks[t].leading && st.tasks[t].key.value in st.subreqOut && st.subreqOut[st.tasks[t].key.value] == t)
  }

  /** The task waits for the connection to `a` to be set up, or for a response on it. */
  ghost predicate Aboard(st: State, t: TaskId, a: Addr) {
    || (a in st.tcpWaiting && OpenTo(st, st.tcpWaiting[a], a) && t in st.sessions[st.tcpWaiting[a]].waiting)
    || (a in st.tcpConnected && OpenTo(st, st.tcpConnected[a], a) && t in st.sessions[st.tcpConnected[a]].tasks.Values)
  }

  lemma FollowsNow(st: State, t: TaskId)
    requires t in st.tasks && st.tasks[t].key.Some? && st.tasks[t].key.value in st.subreqOut
    requires st.subreqOut[st.tasks[t].key.value] in st.tasks
    ensures Follows(FollowerPush(Ref(st, t), st.subreqOut[st.tasks[t].key.value], t), t)
  {
    var l := st.subreqOut[st.tasks[t].key.value];
    var n := FollowerPush(Ref(st, t), l, t);
    assert n.tasks[l].waiting[|n.tasks[l].waiting| - 1] == t;
  }

  lemma QueuedLast(st: State, s: SessId, t: TaskId)
    requires t in st.tasks && s in st.sessions
    ensures t in Queued(st, s, t).sessions[s].waiting
  {
    var q := Queued(st, s, t).sessions[s].waiting;
    assert q[|q| - 1] == t;
  }

  lemma RingingQueued(st: State, s: SessId, tls: bool, peer: Addr, t: TaskId)
    requires t in st.tasks && s !in st.sessions
    ensures var b := Ringing(st, s, tls, peer);
      && b.tasks == st.tasks && s in b.sessions && b.sessions[s] == TcpSession(tls, peer).(connecting := true)
      && var n := Queued(b, s, t);
        && peer in n.tcpWaiting && n.tcpWaiting[peer] == s && OpenTo(n, s, peer)
        && n.sessions[s].connecting && n.sessions[s].waiting == [t]
  {
  }

  lemma HungUpMaps(st: State, s: SessId, tls: bool, peer: Addr)
    requires s !in st.sessions && peer !in st.tcpWaiting && peer !in st.tcpConnected
    ensures var n := HungUp(Dialled(st, s, tls, peer), s, peer);
      n.tasks == st.tasks && peer !in n.tcpWaiting && peer !in n.tcpConnected
  {
  }

  lemma RegisteredAt(st: State, s: SessId)
    requires s in st.sessions && st.sessions[s].peer in st.tcpConnected && st.tcpConnected[st.sessions[s].peer] == s
    ensures !Unregistered(st, s)
  {
  }
}
