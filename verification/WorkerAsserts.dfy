/** Assertions of the source that a run can violate, each with the condition under which it holds. */
module WorkerAsserts {
  import opened Prelude
  import opened Sums
  import opened WorkerState
  import opened WorkerMoves
  import opened WorkerLeads
  import opened WorkerFrames
  import opened WorkerClients
  import opened WorkerUpstream
  import opened WorkerOrder
  import opened WorkerFacts

  ghost function Rest(): Stack { Stack(multiset{}, {}, {}, {}) }

  // ----- building states -----

  /** A task of the daemon's own, not yet stepped. */
  lemma NewTask(st: State)
    requires Inv(st, Rest())
    ensures var n := Create(st, None);
      && st.next !in st.tasks && Inv(n, Rest()) && Free(n, Rest(), st.next)
      && n.tasks == st.tasks[st.next := Task(1, true, None, None, 0, [], [], false, false)]
  {
    hide Inv;
    CreateInv(st, Rest(), None);
    MoorNew(Create(st, None), Rest(), st.next);
  }

  lemma OtherFree(st: State, t: TaskId)
    requires Inv(st, Rest()) && Free(st, Rest(), t)
    ensures Free(Create(st, None), Rest(), t)
  {
    hide Inv, Placed, Stored;
    NewTask(st);
    CreateSums(st, None);
  }

  lemma NewConnection(st: State, s: SessId, tls: bool, peer: Addr)
    requires Inv(st, Rest()) && s !in st.sessions
    ensures var n := Open(st, s, TcpSession(tls, peer)); Inv(n, Rest()) && forall t: TaskId :: Placed(n, t) == Placed(st, t)
  {
    hide Inv, Placed, Stored;
    OpenInv(st, Rest(), s, TcpSession(tls, peer));
    OpenSums(st, s, TcpSession(tls, peer));
  }

  /** Two tasks of the daemon's own. */
  ghost function Two(): State { Create(Create(Empty(), None), None) }

  lemma TwoInv()
    ensures Inv(Two(), Rest()) && Free(Two(), Rest(), 0) && Free(Two(), Rest(), 1)
    ensures Two() == Empty().(tasks := map[0 := New(), 1 := New()], next := 2, concurrent := 2, rconcurrent := 2)
  {
    hide Inv, Free;
    EmptyInv();
    NewTask(Empty());
    NewTask(Create(Empty(), None));
    OtherFree(Create(Empty(), None), 0);
  }

  ghost function New(): Task { Task(1, true, None, None, 0, [], [], false, false) }

  lemma QueuedOther(st: State, s: SessId, t: TaskId, u: TaskId)
    requires Inv(st, Rest()) && Free(st, Rest(), t) && Free(st, Rest(), u) && t != u
    requires s in st.sessions && st.sessions[s].outgoing && st.sessions[s].tcp
    ensures Inv(Queued(st, s, t), Rest()) && Free(Queued(st, s, t), Rest(), u)
  {
    hide Inv, Placed, Stored, Sum;
    QueuedInv(st, Rest(), s, t);
    var b := Ref(st, t);
    var y := b.sessions[s];
    TaskSums(st, t, b.tasks[t]);
    SessSums(b, s, y.(waiting := y.waiting + [t]));
    assert multiset(y.waiting + [t]) == multiset(y.waiting) + multiset{t};
  }

  // ----- a handshake that ends with a failed send (worker.c:785) -----

  /** The first queued task was sent under its own message ID, with write `w`. */
  ghost predicate FirstSent(a: State, b: State, s: SessId, w: nat) {
    && s in a.sessions && a.sessions[s].waiting != []
    && var t := a.sessions[s].waiting[0]; var d := QueuePop(a, s);
      && t in d.tasks && b.sessions == a.sessions[s := d.sessions[s].(tasks := d.sessions[s].tasks[a.tasks[t].msgid := t])]
      && b.writes == a.writes[w := Write(t, s)]
  }

  lemma SendFirst(a: State, s: SessId, w: nat) returns (b: State)
    requires Inv(a, Rest()) && s in a.sessions && LivesAt(a, s, a.sessions[s].peer) && !a.sessions[s].connecting && NotWaited(a, s)
    requires a.sessions[s].waiting != [] && a.sessions[s].tasks == map[] && w !in a.writes
    ensures Inv(b, Rest()) && FirstSent(a, b, s, w)
  {
    hide Inv, Placed, Stored, Quiet, Free, Holders, Unref, Settled, FrameBut, NotWaited;
    var t := a.sessions[s].waiting[0];
    var c1 := Rest().(held := Rest().held + multiset{t});
    QueuePopInv(a, Rest(), s);
    HeadFree(a, Rest(), s);
    var d := QueuePop(a, s);
    FreeAt(d, c1, t);
    PostedInv(d, c1, w, t, s);
    var e := Posted(d, w, t, s);
    QuietKeys(d, e, {});
    StillFree(d, e, c1, t);
    SameNotWaited(a, e, s);
    FiledInv(e, c1, s, t);
    var f := Filed(e, s, t);
    UnrefInv(f, c1, t);
    b := Unref(f, t);
    assert c1.(held := c1.held - multiset{t}) == Rest();
    UnrefParts(f, t);
  }

  lemma UnrefParts(st: State, t: TaskId)
    requires t in st.tasks
    ensures Unref(st, t).sessions == st.sessions && Unref(st, t).writes == st.writes
  {
  }

  /** With two queued tasks the table is not empty when the second one cannot be sent. */
  lemma HandshakeLeaves() returns (a: State, b: State)
    ensures Inv(a, Rest()) && Orderly(a, {}, {}) && LivesAt(a, 0, 7) && !a.sessions[0].connecting
    ensures a.sessions[0].waiting == [0, 1] && a.sessions[0].tasks == map[]
    ensures Inv(b, Rest()) && FirstSent(a, b, 0, 0) && b.sessions[0].tasks != map[] && b.sessions[0].waiting == [1]
  {
    hide Inv, Free, Placed, Stored;
    TwoInv();
    var o := Open(Two(), 0, TcpSession(true, 7));
    NewConnection(Two(), 0, true, 7);
    StillFree(Two(), o, Rest(), 0);
    StillFree(Two(), o, Rest(), 1);
    a := QueueTwo(o);
    TwoOrderly(a);
    b := SendFirst(a, 0, 0);
    assert a.tasks[0].msgid in b.sessions[0].tasks;
  }

  lemma QueueTwo(o: State) returns (a: State)
    requires Inv(o, Rest()) && Free(o, Rest(), 0) && Free(o, Rest(), 1) && o.tasks.Keys == {0, 1}
    requires o.sessions == map[0 := TcpSession(true, 7)] && o.writes == map[] && o.tcpWaiting == map[] && o.tcpConnected == map[]
    ensures Inv(a, Rest()) && a.tasks.Keys == {0, 1} && a.sessions == map[0 := TcpSession(true, 7).(waiting := [0, 1])]
    ensures a.writes == map[] && LivesAt(a, 0, 7) && NotWaited(a, 0)
  {
    hide Inv, Free, Placed, Stored;
    FreeAt(o, Rest(), 0);
    QueuedOther(o, 0, 0, 1);
    var p := Queued(o, 0, 0);
    FreeAt(p, Rest(), 1);
    QueuedInv(p, Rest(), 0, 1);
    var q := Queued(p, 0, 1);
    AddConnectedInv(q, Rest(), 7, 0);
    a := AddConnected(q, 7, 0);
    assert p.sessions[0].waiting == [0] && q.sessions[0].waiting == [0, 1];
    assert a.sessions == map[0 := q.sessions[0]];
  }

  lemma TwoOrderly(a: State)
    requires a.tasks.Keys == {0, 1} && a.sessions == map[0 := TcpSession(true, 7).(waiting := [0, 1])]
    ensures Orderly(a, {}, {})
  {
    var y := a.sessions[0];
    forall u | u in a.tasks ensures Placed(a, u) > 0 {
      assert y.waiting[u] == u;
      assert u in multiset(y.waiting);
      SumTake(a.sessions, 0, Upstream, u);
    }
  }

  // ----- the last reference in a queue (worker.c:1744) -----

  /** The first queued task, once popped, is held by somebody else as well unless it is finished, its request has let
      go of it, and nothing else holds it. */
  lemma PoppedRefs(st: State, s: SessId)
    requires Inv(st, Rest()) && s in st.sessions && st.sessions[s].outgoing && st.sessions[s].tcp && st.sessions[s].waiting != []
    ensures var t, n := st.sessions[s].waiting[0], QueuePop(st, s);
      && t in n.tasks
      && (n.tasks[t].refs > 1 <==> st.tasks[t].primary || Stored(n, t) > 0)
      && (n.tasks[t].refs > 1 || st.tasks[t].finished)
  {
    hide Inv, Stored, Placed;
    var t, n := st.sessions[s].waiting[0], QueuePop(st, s);
    var c := Rest().(held := Rest().held + multiset{t});
    QueuePopInv(st, Rest(), s);
    HeldAlive(n, c, t);
    At(n, c, t);
  }

  /** A finished task that is held by nothing but a queue. */
  lemma QueueHoldsLast() returns (st: State)
    ensures Inv(st, Rest()) && Orderly(st, {}, {}) && 0 in st.sessions && st.sessions[0].outgoing && st.sessions[0].tcp
    ensures st.sessions[0].waiting == [0] && 0 in st.tasks && st.tasks[0].refs == 1
  {
    hide Inv, Free, Placed, Stored, Quiet, Settled;
    EmptyInv();
    NewTask(Empty());
    var a := Create(Empty(), None);
    NewConnection(a, 0, false, 7);
    var o := Open(a, 0, TcpSession(false, 7));
    StillFree(a, o, Rest(), 0);
    FreeAt(o, Rest(), 0);
    QueuedInv(o, Rest(), 0, 0);
    var q := Queued(o, 0, 0);
    var c := Rest().(adrift := Rest().adrift + {0});
    CastOff(q, Rest(), 0);
    FinishInv(q, c, 0);
    var f := Finish(q, 0);
    SettledOrphan(f, 0);
    MoorSettled(f, c, 0);
    assert c.(adrift := c.adrift - {0}) == Rest();
    TakePrimaryInv(f, Rest(), 0);
    var g := TakePrimary(f, 0);
    var d := Rest().(held := Rest().held + multiset{0});
    UnrefInv(g, d, 0);
    assert d.(held := d.held - multiset{0}) == Rest();
    st := Unref(g, 0);
    UnrefParts(g, 0);
    assert q.sessions[0].waiting == [0];
  }

  // ----- a query on a closed client session (session.c:75, worker.c:617, 1168 and 1623) -----

  /** An open session of a TCP client. */
  ghost function Client(): Session { Session(false, true, false, false, false, 0, 7, map[], []) }

  /** A TCP client that was disconnected, beside an open connection to an upstream. */
  lemma ClosedClient() returns (st: State)
    ensures Inv(st, Rest()) && Orderly(st, {}, {}) && st.next == 0 && st.writes == map[]
    ensures st.sessions == map[1 := TcpSession(false, 8), 0 := Client().(closing := true)]
  {
    hide Inv, Stored, Placed;
    EmptyInv();
    NewConnection(Empty(), 1, false, 8);
    var o := Open(Empty(), 1, TcpSession(false, 8));
    OpenInv(o, Rest(), 0, Client());
    var a := Open(o, 0, Client());
    ClientUnregistered(a, Rest(), 0);
    CloseInv(a, Rest(), 0);
    st := Close(a, 0);
  }

  /** A query that arrives after its client's session was closed is still in the table when the session is freed,
      and waits for an upstream until then. */
  lemma LateQuery() returns (st: State)
    ensures Inv(st, Rest()) && 0 in st.sessions && st.sessions[0].closing && !st.sessions[0].outgoing && st.sessions[0].tcp
    ensures st.sessions[0].tasks == map[0 := 0] && st.writes == map[] && Orderly(st, {}, {(0, 0)})
    ensures 0 in st.tasks && !st.tasks[0].finished && st.tasks[0].source == Some(0)
  {
    hide Inv, Stored, Placed, Orderly, Free;
    var b := ClosedClient();
    RegisteredInv(b, Rest(), 0);
    var none: set<TaskId>, kept: set<(SessId, TaskId)> := {}, {};
    RegisteredOrderly(b, Rest(), 0, none, kept);
    assert none + {b.next} == {0} && kept + {(0, b.next)} == {(0, 0)};
    var r := Registered(b, 0);
    FreeNow(r, 0);
    st := QueueLost(r, 1, 0, {0}, {(0, 0)});
    assert {0} - {0} == none;
  }

  lemma FreeNow(st: State, t: TaskId)
    requires t in st.tasks && Placed(st, t) == 0 && st.tasks[t].pending == [] && !st.tasks[t].leading
    ensures Free(st, Rest(), t)
  {
  }

  /** Queueing a task that nobody waits for makes up for it. */
  lemma QueueLost(st: State, s: SessId, t: TaskId, lost: set<TaskId>, strays: set<(SessId, TaskId)>) returns (n: State)
    requires Inv(st, Rest()) && Orderly(st, lost, strays) && Free(st, Rest(), t) && t in st.tasks
    requires s in st.sessions && st.sessions[s] == TcpSession(false, st.sessions[s].peer)
    ensures n == Queued(st, s, t) && Inv(n, Rest()) && Orderly(n, lost - {t}, strays)
  {
    hide Inv, Stored, Placed, Free;
    n := Queued(st, s, t);
    QueuedInv(st, Rest(), s, t);
    QueuedWell(st, s, t);
    QueuedPlaced(st, s, t);
    forall r | r in n.sessions ensures Tended(n, r, strays) {
      assert Tended(st, r, strays);
      if r != s {
        TendedNeat(st, n, r, strays);
      }
    }
  }

  /** The client session of an unfinished query is open unless the query was registered after it was closed. */
  lemma ClientOpen(st: State, c: Stack, s: SessId, t: TaskId, strays: set<(SessId, TaskId)>)
    requires Inv(st, c) && t in st.tasks && !st.tasks[t].finished && t !in c.adrift
    requires st.tasks[t].source == Some(s) && s in st.sessions && st.sessions[s].tcp && Tended(st, s, strays)
    ensures st.sessions[s].closing ==> (s, t) in strays
  {
    hide RefsOk, LeadersOk, MapsOk, CountsOk, TaskOk, PendingOk, Owned, Halved;
    assert SourceOk(st, c, t, st.tasks[t]);
    assert SessOk(st, s, st.sessions[s]);
    assert EntryOk(st, s, st.sessions[s], t);
  }

  // ----- a failed write (session.c:200) -----

  /** The entry a failed write deletes is the writer's own exactly when the writer is still listed there. */
  lemma OwnEntry(st: State, s: SessId, t: TaskId)
    requires Inv(st, Rest()) && t in st.tasks && s in st.sessions && st.sessions[s].outgoing && st.sessions[s].tcp
    ensures Struck(st, s, t) == {t} <==> t in st.sessions[s].tasks.Values
    ensures Struck(st, s, t) == {} <==> st.tasks[t].msgid !in st.sessions[s].tasks
  {
    hide Inv, Placed;
    var k, y := st.tasks[t].msgid, st.sessions[s];
    if t in y.tasks.Values {
      var j :| j in y.tasks && y.tasks[j] == t;
      EntryAlive(st, Rest(), s, j);
    }
    if Struck(st, s, t) == {t} {
      assert y.tasks[k] in Struck(st, s, t);
    }
  }

  /** A task that waits elsewhere, and whose message ID by now belongs to another one on the session it wrote to. */
  lemma StrikesAnother() returns (st: State)
    ensures Inv(st, Rest()) && 0 in st.tasks && 0 in st.sessions && st.writes == map[0 := Write(0, 0)]
    ensures Struck(st, 0, 0) == {1} && 1 in st.tasks && !st.tasks[1].finished && Orderly(st, {}, {})
  {
    hide Inv, Free, Placed, Stored, Quiet, Settled, FrameBut;
    var q := QueuedBeside();
    FreeAt(q, Rest(), 1);
    PostedInv(q, Rest(), 0, 0, 0);
    var p := Posted(q, 0, 0, 0);
    QuietKeys(q, p, {});
    StillFree(q, p, Rest(), 1);
    FreeAt(p, Rest(), 1);
    FiledInv(p, Rest(), 0, 1);
    st := Filed(p, 0, 1);
    BesideOrderly(st);
  }

  /** Two tasks and two connections, the first task queued on the second connection. */
  lemma QueuedBeside() returns (q: State)
    ensures Inv(q, Rest()) && Free(q, Rest(), 1) && q.tasks == map[0 := New().(refs := 2), 1 := New()]
    ensures q.sessions == map[0 := TcpSession(false, 7), 1 := TcpSession(false, 8).(waiting := [0])]
    ensures q.writes == map[] && q.tcpWaiting == map[] && q.tcpConnected == map[]
  {
    hide Inv, Free, Placed, Stored;
    TwoInv();
    var n := Open(Two(), 0, TcpSession(false, 7));
    NewConnection(Two(), 0, false, 7);
    var o := Open(n, 1, TcpSession(false, 8));
    NewConnection(n, 1, false, 8);
    StillFree(Two(), o, Rest(), 0);
    StillFree(Two(), o, Rest(), 1);
    FreeAt(o, Rest(), 0);
    QueuedOther(o, 1, 0, 1);
    q := Queued(o, 1, 0);
    assert q.sessions[1].waiting == [0];
  }

  lemma BesideOrderly(st: State)
    requires st.tasks.Keys == {0, 1}
    requires st.sessions == map[0 := TcpSession(false, 7).(tasks := map[0 := 1]), 1 := TcpSession(false, 8).(waiting := [0])]
    ensures Orderly(st, {}, {})
  {
    hide Sum, Upstream;
    var y, z := st.sessions[0], st.sessions[1];
    assert z.waiting[0] == 0;
    assert y.tasks[0] == 1;
    ListedPlaced(st, 1, 0);
    ListedPlaced(st, 0, 1);
    hide Placed;
    assert forall u | u in st.tasks :: u == 0 || u == 1;
  }
}
