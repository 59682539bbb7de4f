/** What a nested call leaves in order: nobody who was waited for is forgotten, closed sessions stay empty. */
module WorkerOrder {
  import opened Prelude
  import opened Sums
  import opened WorkerState
  import opened WorkerMoves
  import opened WorkerLeads
  import opened WorkerFrames
  import opened WorkerClients
  import opened WorkerUpstream

  /** An unfinished task is waiting for something: in a queue, a table or a follower list, or for a datagram. */
  ghost predicate Engaged(st: State, t: TaskId) {
    t in st.tasks && !st.tasks[t].finished ==> Placed(st, t) > 0 || st.tasks[t].pending != []
  }

  /** An upstream connection has queued tasks only as long as it has sent none. */
  ghost predicate Halved(y: Session) {
    y.outgoing && y.tcp ==> y.waiting == [] || y.tasks == map[]
  }

  /** An open upstream UDP session is one of those its task waits for. */
  ghost predicate Owned(st: State, s: SessId)
    requires s in st.sessions
  {
    var y := st.sessions[s];
    y.outgoing && !y.tcp && !y.closing ==> y.owner in st.tasks && s in st.tasks[y.owner].pending
  }

  ghost predicate Neat(a: State, b: State, s: SessId)
    requires s in b.sessions
  {
    var z := b.sessions[s];
    if s in a.sessions then
      && SameShape(a.sessions[s], z) && Narrowed(a.sessions[s], z)
      && (Owned(a, s) ==> Owned(b, s)) && (Halved(a.sessions[s]) ==> Halved(z))
    else
      Owned(b, s) && Halved(z) && (z.closing ==> z.tasks == map[] && z.waiting == [])
  }

  /** From `a` to `b`, no session but those in `ss` got out of order and no task but those in `ts` was forgotten. */
  ghost predicate Well(a: State, b: State, ts: set<TaskId>, ss: set<SessId>) {
    && a.sessions.Keys <= b.sessions.Keys
    && (forall s | s in b.sessions && s !in ss :: Neat(a, b, s))
    && (forall u | u in b.tasks && u !in ts :: Engaged(a, u) ==> Engaged(b, u))
  }

  lemma WellRefl(a: State)
    ensures Well(a, a, {}, {})
  {
  }

  lemma NeatThen(a: State, b: State, d: State, s: SessId)
    requires a.sessions.Keys <= b.sessions.Keys <= d.sessions.Keys && s in d.sessions
    requires (s in b.sessions ==> Neat(a, b, s)) && Neat(b, d, s)
    ensures Neat(a, d, s)
  {
    if s in a.sessions {
      NarrowedThen(a.sessions[s], b.sessions[s], d.sessions[s]);
      hide Narrowed;
    }
    hide Owned;
    hide Halved;
  }

  lemma WellThen(a: State, b: State, d: State, ts: set<TaskId>, ss: set<SessId>)
    requires Well(a, b, ts, ss) && Well(b, d, ts, ss)
    ensures Well(a, d, ts, ss)
  {
    hide Neat, Placed;
    forall s | s in d.sessions && s !in ss ensures Neat(a, d, s) {
      NeatThen(a, b, d, s);
    }
  }

  lemma WellMore(a: State, b: State, ts: set<TaskId>, ss: set<SessId>, us: set<TaskId>, rs: set<SessId>)
    requires Well(a, b, ts, ss) && ts <= us && ss <= rs
    ensures Well(a, b, us, rs)
  {
    hide Neat, Engaged;
  }

  /** A task that waits, is finished or is gone was not forgotten. */
  lemma WellTask(a: State, b: State, ts: set<TaskId>, ss: set<SessId>, t: TaskId)
    requires Well(a, b, ts, ss) && Engaged(b, t)
    ensures Well(a, b, ts - {t}, ss)
  {
    hide Neat;
  }

  /** Nothing can be said against a task that was not waiting before. */
  lemma WellIdle(a: State, b: State, ts: set<TaskId>, ss: set<SessId>, t: TaskId)
    requires Well(a, b, ts, ss) && !Engaged(a, t)
    ensures Well(a, b, ts - {t}, ss)
  {
    hide Neat;
  }

  lemma WellSess(a: State, b: State, ts: set<TaskId>, ss: set<SessId>, s: SessId)
    requires Well(a, b, ts, ss) && (s in b.sessions ==> Neat(a, b, s))
    ensures Well(a, b, ts, ss - {s})
  {
    hide Neat, Engaged;
  }

  /** Composing two calls that leave different things open. */
  lemma WellBoth(a: State, b: State, d: State, ts: set<TaskId>, ss: set<SessId>, us: set<TaskId>, rs: set<SessId>)
    requires Well(a, b, ts, ss) && Well(b, d, us, rs)
    ensures Well(a, d, ts + us, ss + rs)
  {
    hide Well;
    WellMore(a, b, ts, ss, ts + us, ss + rs);
    WellMore(b, d, us, rs, ts + us, ss + rs);
    WellThen(a, b, d, ts + us, ss + rs);
  }

  lemma OverEngaged(st: State, t: TaskId)
    requires Over(st, t)
    ensures Engaged(st, t)
  {
  }

  lemma EntryEngaged(st: State, s: SessId, k: nat)
    requires s in st.sessions && st.sessions[s].outgoing && st.sessions[s].tcp && k in st.sessions[s].tasks
    ensures Engaged(st, st.sessions[s].tasks[k])
  {
    EntryStored(st, s, k);
  }

  lemma FreeIdle(st: State, c: Stack, t: TaskId)
    requires Free(st, c, t) && !st.tasks[t].finished
    ensures !Engaged(st, t)
  {
  }

  // ----- the single updates -----

  lemma QuietOwned(a: State, c: Stack, b: State, ts: set<TaskId>, s: SessId)
    requires Inv(a, c) && Quiet(a, b, ts) && s in b.sessions && Owned(a, s)
    requires forall t | t in ts && t in a.tasks :: a.tasks[t].pending == []
    ensures Owned(b, s)
  {
    hide RefsOk, SessionsOk, LeadersOk, MapsOk, CountsOk, PendingOk, SourceOk, Placed, Narrowed;
    var y := a.sessions[s];
    if y.outgoing && !y.tcp && !y.closing {
      assert TaskOk(a, c, y.owner, a.tasks[y.owner]);
    }
  }

  lemma QuietWell(a: State, c: Stack, b: State, ts: set<TaskId>)
    requires Inv(a, c) && Quiet(a, b, ts)
    requires forall t | t in ts && t in a.tasks :: a.tasks[t].pending == []
    ensures Well(a, b, ts, {})
  {
    hide Inv, Placed, Narrowed;
    forall s | s in b.sessions ensures Neat(a, b, s) {
      if Owned(a, s) {
        QuietOwned(a, c, b, ts, s);
      }
      hide Owned;
    }
  }

  /** Only the two connection maps and the index differ. */
  lemma MapsWell(a: State, b: State)
    requires b == a.(subreqOut := b.subreqOut, tcpWaiting := b.tcpWaiting, tcpConnected := b.tcpConnected)
    ensures Well(a, b, {}, {})
  {
    hide Placed;
    SameSums(a, b);
  }

  /** One session is edited; what counts is which tasks lose their place there. */
  lemma SessWell(a: State, s: SessId, z: Session, ts: set<TaskId>)
    requires s in a.sessions && SameShape(a.sessions[s], z)
    requires forall u: TaskId | u !in ts :: Upstream(z, u) >= Upstream(a.sessions[s], u)
    ensures Well(a, SetSess(a, s, z), ts, {s})
  {
    hide Placed, Stored, Upstream;
    SessSums(a, s, z);
    var b := SetSess(a, s, z);
    forall r | r in b.sessions && r != s ensures Neat(a, b, r) {
    }
  }

  lemma SessNeat(a: State, s: SessId, z: Session)
    requires s in a.sessions && SameShape(a.sessions[s], z) && Narrowed(a.sessions[s], z) && (Halved(a.sessions[s]) ==> Halved(z))
    requires z.closing == a.sessions[s].closing || z.closing
    ensures Neat(a, SetSess(a, s, z), s)
  {
  }

  /** One task is edited; its followers aside, only it is affected. */
  lemma TaskWell(a: State, t: TaskId, x: Task)
    requires t in a.tasks && x.waiting == a.tasks[t].waiting && x.pending == a.tasks[t].pending
    ensures Well(a, SetTask(a, t, x), {t}, {})
    ensures x.finished == a.tasks[t].finished ==> Well(a, SetTask(a, t, x), {}, {})
  {
    hide Placed, Stored;
    TaskSums(a, t, x);
    var b := SetTask(a, t, x);
    forall s | s in b.sessions ensures Neat(a, b, s) {
    }
  }

  lemma PushWell(a: State, l: TaskId, t: TaskId)
    requires l in a.tasks
    ensures Well(a, FollowerPush(a, l, t), {}, {})
  {
    hide Placed, Stored;
    var q := a.tasks[l].waiting;
    assert multiset(q + [t]) == multiset(q) + multiset{t};
    RequeueSums(a, FollowerPush(a, l, t), l, q + [t]);
  }

  lemma PopWell(a: State, l: TaskId)
    requires l in a.tasks && a.tasks[l].waiting != []
    ensures var q := a.tasks[l].waiting; Well(a, FollowerPop(a, l), {q[|q| - 1]}, {})
  {
    hide Placed, Stored;
    var q := a.tasks[l].waiting;
    assert q == q[..|q| - 1] + [q[|q| - 1]];
    assert multiset(q) == multiset(q[..|q| - 1]) + multiset{q[|q| - 1]};
    RequeueSums(a, FollowerPop(a, l), l, q[..|q| - 1]);
  }

  /** The task's UDP sessions are closed; the task itself waits for nothing any more. */
  lemma KilledWell(a: State, b: State, t: TaskId)
    requires Killing(a, b, t)
    requires forall s | s in a.tasks[t].pending :: s in b.sessions && b.sessions[s].closing
    ensures Well(a, b, {t}, {})
  {
    hide Placed, Narrowed;
    forall s | s in b.sessions ensures Neat(a, b, s) {
      NarrowedSame(a.sessions[s]);
      if Narrowed(a.sessions[s], b.sessions[s]) {
        NarrowedCloses(a.sessions[s], b.sessions[s]);
      }
    }
  }

  lemma NarrowedCloses(y: Session, z: Session)
    requires Narrowed(y, z)
    ensures y.closing ==> z.closing
  {
  }

  lemma NarrowedSame(y: Session)
    ensures Narrowed(y, y)
  {
  }

  lemma LaunchedWell(a: State, t: TaskId, s: SessId, w: nat, peer: Addr)
    requires t in a.tasks && s !in a.sessions && w !in a.writes
    ensures Well(a, Launched(a, t, s, w, peer), {}, {})
  {
    hide Placed, Stored, Narrowed;
    var n := Launched(a, t, s, w, peer);
    LaunchedPlaced(a, t, s, w, peer);
    LaunchedSession(a, t, s, w, peer);
    LaunchedShape(a, Stack(multiset{}, {}, {}, {}), t, s, w, peer);
    hide Launched;
    forall r | r in n.sessions ensures Neat(a, n, r) {
      if r == s {
        assert s == n.tasks[t].pending[|n.tasks[t].pending| - 1];
      } else {
        NarrowedSame(a.sessions[r]);
      }
    }
  }

  lemma LaunchedSession(a: State, t: TaskId, s: SessId, w: nat, peer: Addr)
    requires t in a.tasks && s !in a.sessions && w !in a.writes
    ensures var n := Launched(a, t, s, w, peer);
      n.sessions == a.sessions[s := UdpSession(t, peer).(tasks := map[a.tasks[t].msgid := t])]
  {
  }

  /** A new upstream connection, or a session that never came to be used. */
  lemma OpenWell(a: State, b: State, s: SessId)
    requires b == a.(sessions := b.sessions, tcpWaiting := b.tcpWaiting) && s !in a.sessions && s in b.sessions
    requires b.sessions == a.sessions[s := b.sessions[s]]
    requires b.sessions[s].tcp || b.sessions[s].closing || !b.sessions[s].outgoing
    requires b.sessions[s].tasks == map[] && b.sessions[s].waiting == []
    ensures Well(a, b, {}, {})
  {
    hide Placed, Stored, Narrowed;
    OpenSums(a, s, b.sessions[s]);
    SameSums(Open(a, s, b.sessions[s]), b);
    forall r | r in b.sessions ensures Neat(a, b, r) {
      if r != s {
        NarrowedSame(a.sessions[r]);
      }
    }
  }

  lemma CreateWell(a: State, c: Stack, source: Option<SessId>)
    requires Inv(a, c)
    ensures Well(a, Create(a, source), {a.next}, {})
  {
    hide Placed, Stored, Narrowed, RefsOk, TasksOk, SessionsOk, LeadersOk, MapsOk;
    FreshTask(a);
    CreateSums(a, source);
    var b := Create(a, source);
    forall r | r in b.sessions ensures Neat(a, b, r) {
      NarrowedSame(a.sessions[r]);
    }
  }

  // ----- common sequences -----

  lemma WellQuiet(a: State, b: State, c: Stack, d: State, ts: set<TaskId>, ss: set<SessId>, us: set<TaskId>)
    requires Well(a, b, ts, ss) && Inv(b, c) && Quiet(b, d, us)
    requires forall t | t in us && t in b.tasks :: b.tasks[t].pending == []
    ensures Well(a, d, ts + us, ss)
  {
    hide Inv, Quiet, Well;
    QuietWell(b, c, d, us);
    WellBoth(a, b, d, ts, ss, us, {});
    assert ss + {} == ss;
  }

  /** A task that is over at the end was not forgotten on the way. */
  lemma WellOver(a: State, b: State, c: Stack, d: State, ts: set<TaskId>, ss: set<SessId>, t: TaskId)
    requires Well(a, b, ts, ss) && Inv(b, c) && Quiet(b, d, {t}) && Over(d, t)
    requires t in b.tasks ==> b.tasks[t].pending == []
    ensures Well(a, d, ts - {t}, ss)
  {
    hide Inv, Quiet, Well, Over;
    WellQuiet(a, b, c, d, ts, ss, {t});
    OverEngaged(d, t);
    WellTask(a, d, ts + {t}, ss, t);
    assert ts + {t} - {t} == ts - {t};
  }

  lemma FiledWell(st: State, s: SessId, t: TaskId)
    requires t in st.tasks && s in st.sessions && st.tasks[t].msgid !in st.sessions[s].tasks
    ensures Well(st, Filed(st, s, t), {}, {s})
  {
    hide Well, Sum;
    var b, k := Ref(st, t), st.tasks[t].msgid;
    TaskWell(st, t, b.tasks[t]);
    var y := b.sessions[s];
    var z := y.(tasks := y.tasks[k := t]);
    SumNew(y.tasks, k, t, Is);
    SessWell(b, s, z, {});
    WellMore(st, b, {}, {}, {}, {s});
    WellThen(st, b, Filed(st, s, t), {}, {s});
  }

  lemma QueuedWell(st: State, s: SessId, t: TaskId)
    requires t in st.tasks && s in st.sessions
    ensures Well(st, Queued(st, s, t), {}, {s})
  {
    hide Well, Sum;
    var b := Ref(st, t);
    TaskWell(st, t, b.tasks[t]);
    var y := b.sessions[s];
    assert multiset(y.waiting + [t]) == multiset(y.waiting) + multiset{t};
    SessWell(b, s, y.(waiting := y.waiting + [t]), {});
    WellMore(st, b, {}, {}, {}, {s});
    WellThen(st, b, Queued(st, s, t), {}, {s});
  }

  lemma DequeuedWell(st: State, s: SessId)
    requires s in st.sessions && st.sessions[s].waiting != []
    ensures Well(st, QueuePop(st, s), {st.sessions[s].waiting[0]}, {s})
  {
    hide Well, Sum;
    PopBalance(Stack(multiset{}, {}, {}, {}), st.sessions[s]);
    SessWell(st, s, QueuePop(st, s).sessions[s], {st.sessions[s].waiting[0]});
  }

  lemma TakenWell(st: State, s: SessId, k: nat)
    requires s in st.sessions && k in st.sessions[s].tasks
    ensures Well(st, TableTake(st, s, k), {st.sessions[s].tasks[k]}, {s})
  {
    hide Well, Sum;
    TakeBalance(Stack(multiset{}, {}, {}, {}), st.sessions[s], k);
    SessWell(st, s, TableTake(st, s, k).sessions[s], {st.sessions[s].tasks[k]});
  }

  lemma FollowWell(a: State, l: TaskId, t: TaskId)
    requires l in a.tasks && t in a.tasks
    ensures Well(a, FollowerPush(Ref(a, t), l, t), {}, {})
  {
    hide Well;
    TaskWell(a, t, Ref(a, t).tasks[t]);
    PushWell(Ref(a, t), l, t);
    WellThen(a, Ref(a, t), FollowerPush(Ref(a, t), l, t), {}, {});
  }

  lemma LeadWell(a: State, t: TaskId, k: Key)
    requires t in a.tasks
    ensures Well(a, Enlist(MarkLeading(a, t, true), t, k), {}, {})
  {
    hide Well;
    var b := MarkLeading(a, t, true);
    TaskWell(a, t, b.tasks[t]);
    MapsWell(b, Enlist(b, t, k));
    WellThen(a, b, Enlist(b, t, k), {}, {});
  }

  lemma FollowerStepped(a: State, d: State, e: State, t: TaskId, f: TaskId)
    requires Well(a, d, {t} + {f}, {} + {}) && Well(d, e, {}, {}) && Engaged(e, f)
    ensures Well(a, e, {t}, {})
  {
    hide Well, Engaged;
    WellBoth(a, d, e, {t} + {f}, {} + {}, {}, {});
    WellTask(a, e, {t} + {f} + {}, {} + {} + {}, f);
    WellMore(a, e, {t} + {f} + {} - {f}, {} + {} + {}, {t}, {});
  }

  lemma MisfiredWell(a: State, t: TaskId, s: SessId, peer: Addr)
    requires s !in a.sessions
    ensures Well(a, Misfired(a, t, s, peer), {}, {})
  {
    hide Well;
    OpenWell(a, Misfired(a, t, s, peer), s);
  }

  /** A connection that was open and has an empty queue, and is empty if it was closed. */
  lemma NeatTcp(a: State, b: State, s: SessId)
    requires s in a.sessions && s in b.sessions && SameShape(a.sessions[s], b.sessions[s])
    requires a.sessions[s].tcp && !a.sessions[s].closing
    requires b.sessions[s].waiting == [] && (b.sessions[s].closing ==> b.sessions[s].tasks == map[])
    ensures Neat(a, b, s)
  {
  }

  lemma QueuedNeat(st: State, s: SessId, t: TaskId)
    requires t in st.tasks && s in st.sessions && st.sessions[s].tcp && !st.sessions[s].closing && st.sessions[s].tasks == map[]
    ensures Well(st, Queued(st, s, t), {}, {})
  {
    hide Well;
    QueuedWell(st, s, t);
    WellSess(st, Queued(st, s, t), {}, {s}, s);
    assert {s} - {s} == {};
  }

  lemma HungUpWell(st: State, s: SessId, tls: bool, peer: Addr)
    requires s !in st.sessions && peer !in st.tcpWaiting
    ensures Well(st, HungUp(Dialled(st, s, tls, peer), s, peer), {}, {})
  {
    hide Well;
    OpenWell(st, HungUp(Dialled(st, s, tls, peer), s, peer), s);
  }

  lemma RingingWell(st: State, s: SessId, tls: bool, peer: Addr)
    requires s !in st.sessions
    ensures Well(st, Ringing(st, s, tls, peer), {}, {})
  {
    hide Well;
    OpenWell(st, Ringing(st, s, tls, peer), s);
  }

  lemma DequeuedNeat(st: State, s: SessId)
    requires s in st.sessions && st.sessions[s].waiting != []
    ensures Well(st, QueuePop(st, s), {st.sessions[s].waiting[0]}, {})
  {
    hide Well;
    DequeuedWell(st, s);
    SessNeat(st, s, QueuePop(st, s).sessions[s]);
    WellSess(st, QueuePop(st, s), {st.sessions[s].waiting[0]}, {s}, s);
    assert {s} - {s} == {};
  }

  lemma TakenNeat(st: State, s: SessId, k: nat)
    requires s in st.sessions && k in st.sessions[s].tasks
    ensures Well(st, TableTake(st, s, k), {st.sessions[s].tasks[k]}, {})
  {
    hide Well;
    TakenWell(st, s, k);
    SessNeat(st, s, TableTake(st, s, k).sessions[s]);
    WellSess(st, TableTake(st, s, k), {st.sessions[s].tasks[k]}, {s}, s);
    assert {s} - {s} == {};
  }

  /** The task that a failed write of `t` takes off the table of session `s`: whoever is listed under its message ID. */
  ghost function Struck(st: State, s: SessId, t: TaskId): set<TaskId>
    requires t in st.tasks && s in st.sessions
  {
    var y := st.sessions[s];
    if y.outgoing && y.tcp && st.tasks[t].msgid in y.tasks then {y.tasks[st.tasks[t].msgid]} else {}
  }

  lemma CancelledWell(st: State, c: Stack, s: SessId, t: TaskId)
    requires Inv(st, c) && t in st.tasks && s in st.sessions && st.sessions[s].outgoing && st.sessions[s].tcp
    requires var k := st.tasks[t].msgid; k in st.sessions[s].tasks ==> st.sessions[s].tasks[k] in st.tasks
    ensures Well(st, Cancelled(st, s, st.tasks[t].msgid), Struck(st, s, t), {})
    ensures st.tasks[t].msgid !in st.sessions[s].tasks ==> Cancelled(st, s, st.tasks[t].msgid) == st
  {
    hide Inv, Well, Unref;
    var k := st.tasks[t].msgid;
    if k in st.sessions[s].tasks {
      var u := st.sessions[s].tasks[k];
      var b, c1 := TableTake(st, s, k), c.(held := c.held + multiset{u});
      TakenNeat(st, s, k);
      TableTakeInv(st, c, s, k);
      QuietUnref(b, c1, u);
      WellQuiet(st, b, c1, Unref(b, u), {u}, {}, {});
      assert {u} + {} == {u};
    } else {
      WellRefl(st);
    }
  }

  lemma WrittenWell(a: State, w: nat, d: State, c: Stack, e: State, struck: set<TaskId>)
    requires Well(WriteTake(a, w), d, struck, {}) && Inv(d, c) && Quiet(d, e, {})
    ensures Well(a, e, struck, {})
  {
    hide Inv, Quiet, Well;
    var b := WriteTake(a, w);
    WritesWell(a, b);
    WellMore(a, b, {}, {}, struck, {});
    WellThen(a, b, d, struck, {});
    WellQuiet(a, d, c, e, struck, {}, {});
    assert struck + {} == struck;
  }

  lemma StruckSame(a: State, w: nat, s: SessId, t: TaskId)
    requires t in a.tasks && s in a.sessions
    ensures var b := WriteTake(a, w);
      b.tasks == a.tasks && b.sessions == a.sessions && b.writes == a.writes - {w} && Struck(b, s, t) == Struck(a, s, t)
  {
  }

  lemma WritesWell(a: State, b: State)
    requires b == a.(writes := b.writes)
    ensures Well(a, b, {}, {})
  {
  }

  // ----- what holds between events -----

  ghost predicate Tended(st: State, s: SessId, strays: set<(SessId, TaskId)>)
    requires s in st.sessions
  {
    var y := st.sessions[s];
    && Owned(st, s) && Halved(y)
    && (y.closing ==> y.waiting == [] && forall k | k in y.tasks :: (s, y.tasks[k]) in strays)
  }

  /** Every unfinished task but the lost ones waits for somebody; closed sessions list nothing but strays. */
  ghost predicate Orderly(st: State, lost: set<TaskId>, strays: set<(SessId, TaskId)>) {
    && (forall u | u in st.tasks && u !in lost :: Engaged(st, u))
    && (forall s | s in st.sessions :: Tended(st, s, strays))
  }

  lemma TendedNeat(a: State, b: State, s: SessId, strays: set<(SessId, TaskId)>)
    requires s in b.sessions && Neat(a, b, s) && (s in a.sessions ==> Tended(a, s, strays))
    ensures Tended(b, s, strays)
  {
    hide Owned, Halved;
  }

  /** The tasks that were forgotten on the way are lost. */
  lemma OrderlyBut(a: State, b: State, lost: set<TaskId>, strays: set<(SessId, TaskId)>, ts: set<TaskId>)
    requires Orderly(a, lost, strays) && Well(a, b, ts, {})
    ensures Orderly(b, lost + ts, strays)
  {
    hide Tended, Neat, Placed;
    forall s | s in b.sessions ensures Tended(b, s, strays) {
      TendedNeat(a, b, s, strays);
    }
  }

  lemma OrderlyWell(a: State, b: State, lost: set<TaskId>, strays: set<(SessId, TaskId)>)
    requires Orderly(a, lost, strays) && Well(a, b, {}, {})
    ensures Orderly(b, lost, strays)
  {
    hide Orderly, Well;
    OrderlyBut(a, b, lost, strays, {});
    assert lost + {} == lost;
  }

  lemma OrderlyFound(st: State, lost: set<TaskId>, strays: set<(SessId, TaskId)>, t: TaskId)
    requires Orderly(st, lost + {t}, strays) && Engaged(st, t)
    ensures Orderly(st, lost, strays)
  {
    hide Tended, Engaged;
  }

  lemma OrderlyOwned(st: State, lost: set<TaskId>, strays: set<(SessId, TaskId)>, s: SessId)
    requires Orderly(st, lost, strays) && s in st.sessions
    ensures Owned(st, s) && Halved(st.sessions[s])
  {
    assert Tended(st, s, strays);
  }

  /** What is still listed by a session that was closed. */
  ghost function Left(st: State, s: SessId): set<(SessId, TaskId)>
    requires s in st.sessions
  {
    if st.sessions[s].closing then set k | k in st.sessions[s].tasks :: (s, st.sessions[s].tasks[k]) else {}
  }

  lemma OrderlyLeft(a: State, b: State, lost: set<TaskId>, strays: set<(SessId, TaskId)>, s: SessId)
    requires Orderly(a, lost, strays) && Well(a, b, {}, {s}) && s in b.sessions && b.sessions[s].outgoing && b.sessions[s].tcp
    requires Halved(b.sessions[s]) && (b.sessions[s].closing ==> b.sessions[s].waiting == [])
    ensures Orderly(b, lost, strays + Left(b, s))
  {
    hide Neat, Placed;
    forall r | r in b.sessions ensures Tended(b, r, strays + Left(b, s)) {
      if r != s {
        TendedNeat(a, b, r, strays);
      }
    }
    assert lost + {} == lost;
  }

  /** A connection that is closed when it is empty. */
  lemma ClosedWell(st: State, s: SessId)
    requires s in st.sessions && st.sessions[s].tasks == map[] && st.sessions[s].waiting == []
    ensures Well(st, Close(st, s), {}, {})
  {
    hide Well;
    var z := Close(st, s).sessions[s];
    SameUpstream(st.sessions[s], z);
    SessWell(st, s, z, {});
    SessNeat(st, s, z);
    WellSess(st, Close(st, s), {}, {s}, s);
    assert {s} - {s} == {};
  }

  lemma ConnectedWell(st: State, s: SessId)
    requires s in st.sessions
    ensures Well(st, SetConnecting(st, s, false), {}, {})
  {
    hide Well;
    var z := SetConnecting(st, s, false).sessions[s];
    SameUpstream(st.sessions[s], z);
    SessWell(st, s, z, {});
    SessNeat(st, s, z);
    WellSess(st, SetConnecting(st, s, false), {}, {s}, s);
    assert {s} - {s} == {};
  }

  /** A task that was taken off a table and is over. */
  lemma TakenOver(a: State, b: State, d: State, t: TaskId)
    requires Well(a, b, {t}, {}) && Well(b, d, {}, {}) && Over(d, t)
    ensures Well(a, d, {}, {})
  {
    hide Well, Over;
    WellMore(b, d, {}, {}, {t}, {});
    WellThen(a, b, d, {t}, {});
    OverEngaged(d, t);
    WellTask(a, d, {t}, {}, t);
    assert {t} - {t} == {};
  }

  /** None of the strays of a session is still in its table. */
  ghost predicate NoStray(st: State, s: SessId, strays: set<(SessId, TaskId)>)
    requires s in st.sessions
  {
    forall k | k in st.sessions[s].tasks :: (s, st.sessions[s].tasks[k]) !in strays
  }

  // ----- who will step a task -----

  ghost predicate Lists(y: Session, t: TaskId) {
    y.outgoing && y.tcp && (t in y.waiting || t in y.tasks.Values)
  }

  /** Somebody is left to step the task: an open UDP session's timer or reply, an open connection that has it queued or
      listed, or the leader of its question, which awaits a datagram itself. */
  ghost predicate Attended(st: State, t: TaskId, lost: set<TaskId>)
    requires t in st.tasks
  {
    || (exists s | s in st.tasks[t].pending :: s in st.sessions && !st.sessions[s].closing)
    || (exists s | s in st.sessions :: !st.sessions[s].closing && Lists(st.sessions[s], t))
    || (exists l | l in st.tasks && t in st.tasks[l].waiting ::
          st.tasks[l].leading && !st.tasks[l].finished && (l in lost || st.tasks[l].pending != []))
  }

  /** The task sits in the table or queue of an upstream connection that was closed. */
  ghost predicate Stranded(st: State, t: TaskId) {
    exists s | s in st.sessions :: st.sessions[s].closing && Lists(st.sessions[s], t)
  }

  lemma ListsUpstream(y: Session, t: TaskId)
    ensures Lists(y, t) <==> Upstream(y, t) > 0
  {
    if y.outgoing && y.tcp {
      assert t in y.waiting <==> multiset(y.waiting)[t] > 0;
      if t in y.tasks.Values {
        var k :| k in y.tasks && y.tasks[k] == t;
        SumTake(y.tasks, k, Is, t);
      }
      if Sum(y.tasks, Is, t) > 0 {
        var k := SumWhere(y.tasks, Is, t);
        assert y.tasks[k] in y.tasks.Values;
      }
    }
  }

  lemma ListedPlaced(st: State, s: SessId, t: TaskId)
    requires s in st.sessions && Lists(st.sessions[s], t)
    ensures Placed(st, t) > 0
  {
    hide Sum, Upstream, Lists;
    ListsUpstream(st.sessions[s], t);
    SumTake(st.sessions, s, Upstream, t);
  }

  lemma PlacedWhere(st: State, t: TaskId)
    requires Placed(st, t) > 0
    ensures (exists l | l in st.tasks :: t in st.tasks[l].waiting) || (exists s | s in st.sessions :: Lists(st.sessions[s], t))
  {
    hide Sum, Lists, Upstream;
    if Sum(st.tasks, Followers, t) > 0 {
      var l := SumWhere(st.tasks, Followers, t);
      assert t in multiset(st.tasks[l].waiting);
    } else {
      var s := SumWhere(st.sessions, Upstream, t);
      ListsUpstream(st.sessions[s], t);
    }
  }

  lemma LeaderWaits(st: State, c: Stack, l: TaskId, t: TaskId, lost: set<TaskId>, strays: set<(SessId, TaskId)>)
    requires Inv(st, c) && Orderly(st, lost, strays) && l in st.tasks && t in st.tasks[l].waiting
    ensures st.tasks[l].leading && !st.tasks[l].finished && (l in lost || st.tasks[l].pending != [])
  {
    hide RefsOk, SessionsOk, LeadersOk, MapsOk, CountsOk, Placed, Tended;
    assert TaskOk(st, c, l, st.tasks[l]);
    assert l !in lost ==> Engaged(st, l);
  }

  lemma PendingOpen(st: State, c: Stack, t: TaskId)
    requires Inv(st, c) && t in st.tasks && st.tasks[t].pending != []
    ensures exists s | s in st.tasks[t].pending :: s in st.sessions && !st.sessions[s].closing
  {
    hide RefsOk, SessionsOk, LeadersOk, MapsOk, CountsOk, TaskOk, SourceOk;
    assert PendingOk(st, c, t, st.tasks[t]);
    assert st.tasks[t].pending[0] in st.tasks[t].pending;
  }

  lemma StrandedPlaced(st: State, t: TaskId)
    requires Stranded(st, t)
    ensures Placed(st, t) > 0
  {
    hide Placed, Lists;
    var s :| s in st.sessions && st.sessions[s].closing && Lists(st.sessions[s], t);
    ListedPlaced(st, s, t);
  }

  /** A task has one place only, so that one on a closed connection is nowhere else. */
  lemma StrandedAlone(st: State, t: TaskId)
    requires Stranded(st, t) && Placed(st, t) <= 1
    ensures forall l | l in st.tasks :: t !in st.tasks[l].waiting
    ensures forall s | s in st.sessions && Lists(st.sessions[s], t) :: st.sessions[s].closing
  {
    hide Upstream, Lists, Sum;
    var r :| r in st.sessions && st.sessions[r].closing && Lists(st.sessions[r], t);
    ListsUpstream(st.sessions[r], t);
    SumTake(st.sessions, r, Upstream, t);
    forall l | l in st.tasks ensures t !in st.tasks[l].waiting {
      if t in st.tasks[l].waiting {
        assert t in multiset(st.tasks[l].waiting);
        SumTake(st.tasks, l, Followers, t);
      }
    }
    forall s | s in st.sessions && Lists(st.sessions[s], t) ensures st.sessions[s].closing {
      if s != r {
        ListsUpstream(st.sessions[s], t);
        SumBoth(st.sessions, s, r, Upstream, t);
      }
    }
  }

  /** Every unfinished task that was not lost is attended, exactly unless a closed connection still lists it. */
  lemma AttendedUnlessStranded(st: State, c: Stack, lost: set<TaskId>, strays: set<(SessId, TaskId)>, t: TaskId)
    requires Inv(st, c) && Orderly(st, lost, strays) && t in st.tasks && !st.tasks[t].finished && t !in lost
    ensures Attended(st, t, lost) <==> !Stranded(st, t)
  {
    hide Inv, Orderly, Placed, Lists;
    if Stranded(st, t) {
      StrandedPlaced(st, t);
      OnePlace(st, c, t);
      StrandedAlone(st, t);
    } else {
      OrderlyEngaged(st, lost, strays, t);
      if st.tasks[t].pending != [] {
        PendingOpen(st, c, t);
      } else {
        PlacedWhere(st, t);
        if l :| l in st.tasks && t in st.tasks[l].waiting {
          LeaderWaits(st, c, l, t, lost, strays);
        }
      }
    }
  }

  lemma OnePlace(st: State, c: Stack, t: TaskId)
    requires Inv(st, c) && t in st.tasks
    ensures Placed(st, t) <= 1 && (st.tasks[t].pending != [] ==> Placed(st, t) == 0)
  {
    hide RefsOk, SessionsOk, LeadersOk, MapsOk, CountsOk, Placed, PendingOk, SourceOk;
    assert TaskOk(st, c, t, st.tasks[t]);
  }

  lemma OrderlyEngaged(st: State, lost: set<TaskId>, strays: set<(SessId, TaskId)>, t: TaskId)
    requires Orderly(st, lost, strays) && t in st.tasks && t !in lost
    ensures Engaged(st, t)
  {
  }

  /** What a closed connection still lists is a stray of it. */
  lemma StrandedStray(st: State, lost: set<TaskId>, strays: set<(SessId, TaskId)>, t: TaskId)
    requires Orderly(st, lost, strays) && Stranded(st, t)
    ensures exists s | s in st.sessions && st.sessions[s].closing && Lists(st.sessions[s], t) :: (s, t) in strays
  {
    hide Engaged, Owned, Halved;
    var s :| s in st.sessions && st.sessions[s].closing && Lists(st.sessions[s], t);
    assert Tended(st, s, strays);
  }

  /** The tasks that nobody attends are the lost ones, and those left behind on a connection that was closed. */
  ghost predicate Served(st: State, lost: set<TaskId>, strays: set<(SessId, TaskId)>) {
    forall t | t in st.tasks && !st.tasks[t].finished && t !in lost ::
      && (Attended(st, t, lost) <==> !Stranded(st, t))
      && (Stranded(st, t) ==>
            exists s | s in st.sessions && st.sessions[s].closing && Lists(st.sessions[s], t) :: (s, t) in strays)
  }

  lemma OrderlyServed(st: State, c: Stack, lost: set<TaskId>, strays: set<(SessId, TaskId)>)
    requires Inv(st, c) && Orderly(st, lost, strays)
    ensures Served(st, lost, strays)
  {
    hide Inv, Orderly, Attended, Stranded;
    forall t | t in st.tasks && !st.tasks[t].finished && t !in lost
      ensures Attended(st, t, lost) <==> !Stranded(st, t)
      ensures Stranded(st, t) ==>
        exists s | s in st.sessions && st.sessions[s].closing && Lists(st.sessions[s], t) :: (s, t) in strays
    {
      AttendedUnlessStranded(st, c, lost, strays, t);
      if Stranded(st, t) {
        StrandedStray(st, lost, strays, t);
      }
    }
  }

  /** When a closed session is freed, it is empty exactly when no stray is left in it. */
  lemma EmptyUnlessStray(st: State, lost: set<TaskId>, strays: set<(SessId, TaskId)>, s: SessId)
    requires Orderly(st, lost, strays) && s in st.sessions && st.sessions[s].closing
    ensures st.sessions[s].tasks == map[] && st.sessions[s].waiting == [] <==> NoStray(st, s, strays)
  {
    assert Tended(st, s, strays);
  }

  lemma OrderlyRelease(st: State, lost: set<TaskId>, strays: set<(SessId, TaskId)>, s: SessId)
    requires Orderly(st, lost, strays) && s in st.sessions && st.sessions[s].tasks == map[] && st.sessions[s].waiting == []
    ensures Orderly(Release(st, s), lost, strays)
  {
    hide Placed, Stored;
    ReleaseSums(st, s);
    var n := Release(st, s);
    forall r | r in n.sessions ensures Tended(n, r, strays) {
      assert Tended(st, r, strays);
    }
    forall u | u in n.tasks && u !in lost ensures Engaged(n, u) {
      assert Engaged(st, u);
    }
  }
}
