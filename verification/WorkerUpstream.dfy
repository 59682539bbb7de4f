/** Upstream UDP sessions of a task, and new upstream connections. */
module WorkerUpstream {
  import opened Sums
  import opened WorkerState
  import opened WorkerMoves
  import opened WorkerLeads
  import opened WorkerFrames
  import opened WorkerClients

  /** Old sessions are untouched, new ones may have been opened and registered. */
  lemma FrameGrow(a: State, b: State, busy: set<TaskId>)
    requires b.next == a.next && b.tasks.Keys <= a.tasks.Keys && a.sessions.Keys <= b.sessions.Keys
    requires forall s | s in a.sessions :: b.sessions[s] == a.sessions[s] && (Unregistered(a, s) ==> Unregistered(b, s))
    requires forall t | t in busy && t in a.tasks :: t in b.tasks && SameDriven(a.tasks[t], b.tasks[t])
    requires Lasting(a, b)
    ensures Frame(a, b, busy)
  {
    forall s | s in a.sessions ensures KeptSession(a, b, s) {
    }
  }

  // ----- killing the open UDP sessions of a task (worker.c:191-197, session.c:741-756) -----

  /** Only UDP sessions and task `t`'s list of them differ. */
  ghost predicate Killing(a: State, b: State, t: TaskId) {
    && t in a.tasks && t in b.tasks
    && b == a.(tasks := b.tasks, sessions := b.sessions)
    && b.tasks == a.tasks[t := a.tasks[t].(pending := b.tasks[t].pending, refs := b.tasks[t].refs)]
    && b.sessions.Keys == a.sessions.Keys
    && (forall s | s in a.sessions ::
          || b.sessions[s] == a.sessions[s]
          || (&& a.sessions[s].outgoing && !a.sessions[s].tcp
              && SameShape(a.sessions[s], b.sessions[s]) && Narrowed(a.sessions[s], b.sessions[s])))
    && (forall u: TaskId :: Placed(b, u) == Placed(a, u))
  }

  lemma KillingThen(a: State, b: State, d: State, t: TaskId)
    requires Killing(a, b, t) && Killing(b, d, t)
    ensures Killing(a, d, t)
  {
    hide Placed, Narrowed;
    forall s | s in a.sessions && Narrowed(a.sessions[s], b.sessions[s]) && Narrowed(b.sessions[s], d.sessions[s])
      ensures Narrowed(a.sessions[s], d.sessions[s])
    {
      NarrowedThen(a.sessions[s], b.sessions[s], d.sessions[s]);
    }
  }

  lemma KillingRefl(a: State, t: TaskId)
    requires t in a.tasks
    ensures Killing(a, a, t)
  {
    assert a.tasks == a.tasks[t := a.tasks[t].(pending := a.tasks[t].pending, refs := a.tasks[t].refs)];
  }

  lemma KillingFrame(a: State, b: State, t: TaskId, busy: set<TaskId>)
    requires Killing(a, b, t) && t !in busy
    ensures Frame(a, b, busy)
  {
    hide Placed;
    forall s | s in a.sessions ensures KeptSession(a, b, s) {
    }
  }

  function Last(st: State, t: TaskId): SessId
    requires t in st.tasks && st.tasks[t].pending != []
  {
    st.tasks[t].pending[|st.tasks[t].pending| - 1]
  }

  /** The last open session of `t` is emptied. */
  function Emptied(st: State, t: TaskId): State
    requires t in st.tasks && st.tasks[t].pending != [] && Last(st, t) in st.sessions
  {
    TableTake(st, Last(st, t), st.tasks[t].msgid)
  }

  /** ... dropped from the task's list and closed. */
  function Shut(st: State, t: TaskId): State
    requires t in st.tasks && st.tasks[t].pending != [] && Last(st, t) in st.sessions
  {
    Close(PendDrop(st, t), Last(st, t))
  }

  function Killed(st: State, t: TaskId): State
    requires t in st.tasks && st.tasks[t].pending != [] && Last(st, t) in st.sessions
  {
    if st.tasks[t].msgid in st.sessions[Last(st, t)].tasks then
      var b := Shut(Emptied(st, t), t);
      if t in b.tasks then Unref(b, t) else b
    else
      Shut(st, t)
  }

  lemma ShutInv(st: State, c: Stack, t: TaskId)
    requires Inv(st, c) && t in st.tasks && st.tasks[t].pending != []
    ensures Last(st, t) in st.sessions
    ensures st.sessions[Last(st, t)].tasks == map[] ==> Inv(Shut(st, t), c)
  {
    hide Inv, Holders, Placed;
    var s := Last(st, t);
    OwnTable(st, c, t, s);
    At(st, c, t);
    if st.sessions[s].tasks == map[] {
      PendDropInv(st, c, t);
      var b := PendDrop(st, t);
      assert NotPending(b, s);
      UdpUnregistered(b, c, s);
      CloseInv(b, c, s);
    }
  }

  lemma UdpUnregistered(st: State, c: Stack, s: SessId)
    requires Inv(st, c) && s in st.sessions && !st.sessions[s].tcp
    ensures Unregistered(st, s)
  {
    hide RefsOk, TasksOk, SessionsOk, LeadersOk, CountsOk;
  }

  lemma ShutKilling(st: State, c: Stack, t: TaskId)
    requires Inv(st, c) && t in st.tasks && st.tasks[t].pending != [] && Last(st, t) in st.sessions
    requires st.sessions[Last(st, t)].tasks == map[]
    ensures Killing(st, Shut(st, t), t)
  {
    hide Inv, Placed, Stored;
    var s := Last(st, t);
    OwnTable(st, c, t, s);
    TaskSums(st, t, PendDrop(st, t).tasks[t]);
    SessSums(PendDrop(st, t), s, Shut(st, t).sessions[s]);
    UdpPlaces(PendDrop(st, t).sessions[s], Shut(st, t).sessions[s]);
  }

  lemma UdpPlaces(y: Session, z: Session)
    requires !y.tcp && !z.tcp
    ensures forall u: TaskId :: Upstream(y, u) == 0 && Upstream(z, u) == 0
  {
  }

  lemma EmptiedInv(st: State, c: Stack, t: TaskId)
    requires Inv(st, c) && t in c.loose && t in st.tasks && st.tasks[t].pending != []
    requires Last(st, t) in st.sessions && st.tasks[t].msgid in st.sessions[Last(st, t)].tasks
    ensures Inv(Emptied(st, t), c.(held := c.held + multiset{t}))
    ensures Emptied(st, t).sessions[Last(st, t)].tasks == map[]
    ensures Killing(st, Emptied(st, t), t)
  {
    hide Inv, Placed, Stored;
    var s := Last(st, t);
    OwnTable(st, c, t, s);
    TableTakeInv(st, c, s, st.tasks[t].msgid);
    SessSums(st, s, Emptied(st, t).sessions[s]);
    UdpPlaces(st.sessions[s], Emptied(st, t).sessions[s]);
    assert Emptied(st, t).tasks == st.tasks[t := st.tasks[t].(pending := st.tasks[t].pending, refs := st.tasks[t].refs)];
  }

  lemma DropKilling(st: State, c: Stack, t: TaskId)
    requires Inv(st, c) && t in c.held && t in st.tasks && st.tasks[t].primary
    ensures Killing(st, Unref(st, t), t)
  {
    hide Inv, Placed, Stored;
    UnrefKeeps(st, c, t);
    TaskSums(st, t, Unref(st, t).tasks[t]);
  }

  /** Killing one session keeps the invariant while the task counts as loose. */
  lemma KilledInv(st: State, c: Stack, t: TaskId)
    requires Inv(st, c) && t in c.loose && t in st.tasks && st.tasks[t].pending != []
    ensures Last(st, t) in st.sessions
    ensures Inv(Killed(st, t), c) && Killing(st, Killed(st, t), t)
    ensures Killed(st, t).tasks[t].pending == st.tasks[t].pending[..|st.tasks[t].pending| - 1]
  {
    hide Inv, Holders, Placed, Killing, Unref;
    var s := Last(st, t);
    OwnTable(st, c, t, s);
    At(st, c, t);
    if st.tasks[t].msgid in st.sessions[s].tasks {
      var b := Emptied(st, t);
      var d := Shut(b, t);
      var c1 := c.(held := c.held + multiset{t});
      EmptiedInv(st, c, t);
      ShutInv(b, c1, t);
      ShutKilling(b, c1, t);
      UnrefInv(d, c1, t);
      DropKilling(d, c1, t);
      KillingThen(st, b, d, t);
      KillingThen(st, d, Unref(d, t), t);
      KillingPending(d, Unref(d, t), c1, t);
      assert c1.(held := c1.held - multiset{t}) == c;
    } else {
      assert st.sessions[s].tasks == map[];
      ShutInv(st, c, t);
      ShutKilling(st, c, t);
    }
  }

  /** The last open session is left closed and empty. */
  lemma KilledShut(st: State, c: Stack, t: TaskId)
    requires Inv(st, c) && t in st.tasks && st.tasks[t].pending != [] && Last(st, t) in st.sessions
    ensures var s := Last(st, t); Killed(st, t).sessions == st.sessions[s := st.sessions[s].(closing := true, tasks := map[])]
  {
    hide Inv, Holders, Placed, Stored;
    var s := Last(st, t);
    OwnTable(st, c, t, s);
    var y := st.sessions[s];
    if st.tasks[t].msgid in y.tasks {
      assert y.tasks - {st.tasks[t].msgid} == map[];
      var b := Shut(Emptied(st, t), t);
      UnrefSessions(b, t);
      hide Unref;
      assert b.sessions[s] == y.(closing := true, tasks := map[]);
      assert b.sessions == st.sessions[s := b.sessions[s]];
    } else {
      assert y.tasks == map[];
    }
  }

  lemma UnrefSessions(st: State, t: TaskId)
    requires t in st.tasks
    ensures Unref(st, t).sessions == st.sessions
  {
  }


  lemma KillingPending(d: State, e: State, c: Stack, t: TaskId)
    requires Inv(d, c) && t in c.held && t in d.tasks && d.tasks[t].primary && e == Unref(d, t)
    ensures t in e.tasks && e.tasks[t].pending == d.tasks[t].pending
  {
    hide Inv, Stored;
    UnrefKeeps(d, c, t);
  }

  // ----- a query datagram (worker.c:1016-1054) -----

  function UdpSession(t: TaskId, peer: Addr): Session {
    Session(true, false, false, false, false, t, peer, map[], [])
  }

  /** A new UDP session with the datagram's write outstanding. */
  function Spawned(st: State, t: TaskId, s: SessId, w: nat, peer: Addr): State
    requires t in st.tasks
  {
    Posted(Open(st, s, UdpSession(t, peer)), w, t, s)
  }

  /** The session joins the task's open sessions and lists the task. */
  function Launched(st: State, t: TaskId, s: SessId, w: nat, peer: Addr): State
    requires t in st.tasks
  {
    Filed(PendAdd(Spawned(st, t, s, w, peer), t, s), s, t)
  }

  /** From `a` to `b` one more UDP session was opened for the task, with its datagram on the way. */
  ghost predicate ByLaunch(a: State, b: State, t: TaskId) {
    t in a.tasks && exists s: SessId, w: nat, peer: Addr ::
      s !in a.sessions && w !in a.writes && b == Launched(a, t, s, w, peer)
  }

  lemma Launching(a: State, t: TaskId, s: SessId, w: nat, peer: Addr)
    requires t in a.tasks && s !in a.sessions && w !in a.writes
    ensures ByLaunch(a, Launched(a, t, s, w, peer), t)
  {
  }

  /** A UDP session whose datagram could not be sent: it is closed at once. */
  function Misfired(st: State, t: TaskId, s: SessId, peer: Addr): State {
    Open(st, s, UdpSession(t, peer).(closing := true))
  }

  ghost predicate ByMisfire(a: State, b: State, t: TaskId) {
    exists s: SessId, peer: Addr :: s !in a.sessions && b == Misfired(a, t, s, peer)
  }

  lemma MisfiredInv(st: State, c: Stack, t: TaskId, s: SessId, peer: Addr)
    requires Inv(st, c) && s !in st.sessions
    ensures Inv(Misfired(st, t, s, peer), c) && ByMisfire(st, Misfired(st, t, s, peer), t)
    ensures Frame(st, Misfired(st, t, s, peer), c.busy)
    ensures var n := Misfired(st, t, s, peer); n.tasks == st.tasks && n.subreqOut == st.subreqOut && Placed(n, t) == Placed(st, t)
  {
    hide Inv, Frame, Placed, Stored;
    var y := UdpSession(t, peer).(closing := true);
    OpenInv(st, c, s, y);
    OpenSums(st, s, y);
    FrameGrow(st, Misfired(st, t, s, peer), c.busy);
  }

  lemma FreshPending(st: State, c: Stack, s: SessId, t: TaskId)
    requires Inv(st, c) && t in st.tasks && s !in st.sessions
    ensures s !in st.tasks[t].pending
  {
    hide RefsOk, SessionsOk, LeadersOk, MapsOk, CountsOk, TaskOk, SourceOk;
    assert PendingOk(st, c, t, st.tasks[t]);
  }

  lemma SpawnedInv(st: State, c: Stack, t: TaskId, s: SessId, w: nat, peer: Addr)
    requires Inv(st, c) && t in st.tasks && s !in st.sessions && w !in st.writes
    ensures Inv(Spawned(st, t, s, w, peer), c)
    ensures Placed(Spawned(st, t, s, w, peer), t) == Placed(st, t)
  {
    hide Inv, Quiet, Placed, Stored, Settled;
    var y := UdpSession(t, peer);
    OpenInv(st, c, s, y);
    OpenSums(st, s, y);
    PostedInv(Open(st, s, y), c, w, t, s);
    QuietKeys(Open(st, s, y), Spawned(st, t, s, w, peer), {});
  }

  lemma JoinedInv(st: State, c: Stack, t: TaskId, s: SessId)
    requires Inv(st, c) && t in c.loose && t in st.tasks && t !in c.busy && Placed(st, t) == 0 && !st.tasks[t].finished
    requires s in st.sessions && st.sessions[s] == UdpSession(t, st.sessions[s].peer) && s !in st.tasks[t].pending
    ensures Inv(Filed(PendAdd(st, t, s), s, t), c)
  {
    hide Inv, Placed, Stored;
    PendAddInv(st, c, t, s);
    var b := PendAdd(st, t, s);
    var d := Ref(b, t);
    var c1 := c.(held := c.held + multiset{t});
    RefInv(b, c, t);
    TablePutInv(d, c1, s, d.tasks[t].msgid, t);
    assert c1.(held := c1.held - multiset{t}) == c;
  }

  lemma JoinedTight(st: State, c: Stack, t: TaskId, s: SessId)
    requires t in st.tasks && PendingOk(st, c, t, st.tasks[t]) && t !in c.loose
    requires s in st.sessions && st.sessions[s] == UdpSession(t, st.sessions[s].peer) && s !in st.tasks[t].pending
    ensures var n := Filed(PendAdd(st, t, s), s, t); PendingOk(n, c, t, n.tasks[t])
  {
    var n := Filed(PendAdd(st, t, s), s, t);
    forall r | r in n.tasks[t].pending
      ensures r in n.sessions && n.sessions[r].outgoing && !n.sessions[r].tcp && !n.sessions[r].closing
              && n.sessions[r].owner == t && n.tasks[t].msgid in n.sessions[r].tasks
    {
      assert r == s || r in st.tasks[t].pending;
    }
  }

  lemma LaunchedInv(st: State, c: Stack, t: TaskId, s: SessId, w: nat, peer: Addr)
    requires Inv(st, c) && t in st.tasks && t !in c.busy && t !in c.loose && Placed(st, t) == 0 && !st.tasks[t].finished
    requires s !in st.sessions && w !in st.writes
    ensures Inv(Launched(st, t, s, w, peer), c)
  {
    hide Inv, Placed, Stored, Holders, PendingOk;
    var b := Spawned(st, t, s, w, peer);
    var c1 := c.(loose := c.loose + {t});
    SpawnedInv(st, c, t, s, w, peer);
    FreshPending(st, c, s, t);
    At(b, c, t);
    JoinedTight(b, c, t, s);
    Loosen(b, c, t);
    JoinedInv(b, c1, t, s);
    assert c1.(loose := c1.loose - {t}) == c;
    Tighten(Launched(st, t, s, w, peer), c1, t);
  }

  /** What a launched datagram changes. */
  lemma LaunchedShape(st: State, c: Stack, t: TaskId, s: SessId, w: nat, peer: Addr)
    requires t in st.tasks && s !in st.sessions && w !in st.writes
    ensures var n := Launched(st, t, s, w, peer);
            && n == st.(tasks := n.tasks, sessions := n.sessions, writes := n.writes)
            && n.tasks == st.tasks[t := st.tasks[t].(pending := st.tasks[t].pending + [s], refs := st.tasks[t].refs + 2)]
            && (forall r | r in st.sessions :: r in n.sessions && n.sessions[r] == st.sessions[r])
  {
    hide Placed, Stored;
  }

  lemma LaunchedPlaced(st: State, t: TaskId, s: SessId, w: nat, peer: Addr)
    requires t in st.tasks && s !in st.sessions && w !in st.writes
    ensures forall u: TaskId :: Placed(Launched(st, t, s, w, peer), u) == Placed(st, u)
  {
    hide Placed, Stored;
    var y := UdpSession(t, peer);
    OpenSums(st, s, y);
    var o := Open(st, s, y);
    TaskSums(o, t, Ref(o, t).tasks[t]);
    WriteAddSums(Ref(o, t), w, t, s);
    var b := Spawned(st, t, s, w, peer);
    TaskSums(b, t, PendAdd(b, t, s).tasks[t]);
    var d := PendAdd(b, t, s);
    TaskSums(d, t, Ref(d, t).tasks[t]);
    SessSums(Ref(d, t), s, Filed(d, s, t).sessions[s]);
    UdpPlaces(d.sessions[s], Filed(d, s, t).sessions[s]);
  }

  lemma LaunchedFrame(st: State, c: Stack, t: TaskId, s: SessId, w: nat, peer: Addr)
    requires t in st.tasks && s !in st.sessions && w !in st.writes && t !in c.busy
    ensures Frame(st, Launched(st, t, s, w, peer), c.busy)
  {
    hide Launched, Frame;
    LaunchedShape(st, c, t, s, w, peer);
    FrameGrow(st, Launched(st, t, s, w, peer), c.busy);
  }

  // ----- queueing on a connection, and new connections (worker.c:1237-1254, 1296-1394) -----

  function Queued(st: State, s: SessId, t: TaskId): State
    requires t in st.tasks && s in st.sessions
  {
    QueuePush(Ref(st, t), s, t)
  }

  lemma QueuedInv(st: State, c: Stack, s: SessId, t: TaskId)
    requires Inv(st, c) && Free(st, c, t) && s in st.sessions && st.sessions[s].outgoing && st.sessions[s].tcp
    ensures Inv(Queued(st, s, t), c)
  {
    hide Inv, Placed;
    var c1 := c.(held := c.held + multiset{t});
    RefInv(st, c, t);
    RefFree(st, c, c1, t);
    QueuePushInv(Ref(st, t), c1, s, t);
    assert c1.(held := c1.held - multiset{t}) == c;
  }

  lemma QueuedPlaced(st: State, s: SessId, t: TaskId)
    requires t in st.tasks && s in st.sessions && st.sessions[s].outgoing && st.sessions[s].tcp
    ensures Placed(Queued(st, s, t), t) > 0 && t in Queued(st, s, t).tasks
  {
    var n := Queued(st, s, t);
    assert n.sessions[s].waiting[|n.sessions[s].waiting| - 1] == t;
    assert t in multiset(n.sessions[s].waiting);
    SumTake(n.sessions, s, Upstream, t);
  }

  lemma QueuedFrame(st: State, c: Stack, s: SessId, t: TaskId)
    requires t in st.tasks && t !in c.busy && s in st.sessions && !Unregistered(st, s)
    ensures Frame(st, Queued(st, s, t), c.busy)
  {
    var n := Queued(st, s, t);
    forall r | r in st.sessions ensures KeptSession(st, n, r) {
    }
  }

  function TcpSession(tls: bool, peer: Addr): Session {
    Session(true, true, tls, false, false, 0, peer, map[], [])
  }

  /** A new session waiting to be connected to `peer`. */
  function Dialled(st: State, s: SessId, tls: bool, peer: Addr): State {
    AddWaiting(Open(st, s, TcpSession(tls, peer)), peer, s)
  }

  lemma DialledInv(st: State, c: Stack, s: SessId, tls: bool, peer: Addr)
    requires Inv(st, c) && s !in st.sessions && peer !in st.tcpWaiting && peer !in st.tcpConnected
    ensures Inv(Dialled(st, s, tls, peer), c)
    ensures forall u: TaskId :: Placed(Dialled(st, s, tls, peer), u) == Placed(st, u)
  {
    hide Inv, Placed, Stored;
    var y := TcpSession(tls, peer);
    OpenInv(st, c, s, y);
    OpenSums(st, s, y);
    AddWaitingInv(Open(st, s, y), c, peer, s);
    SameSums(Open(st, s, y), Dialled(st, s, tls, peer));
  }

  lemma DialledFrame(st: State, c: Stack, s: SessId, tls: bool, peer: Addr, b: State)
    requires Inv(st, c) && s !in st.sessions && peer !in st.tcpWaiting && peer !in st.tcpConnected
    requires b.next == st.next && b.tasks == st.tasks && b.tcpConnected == st.tcpConnected
    requires b.sessions.Keys == st.sessions.Keys + {s} && forall r | r in st.sessions :: b.sessions[r] == st.sessions[r]
    requires b.tcpWaiting == st.tcpWaiting || b.tcpWaiting == st.tcpWaiting[peer := s]
    ensures Frame(st, b, c.busy)
  {
    hide Inv, Frame;
    FrameGrow(st, b, c.busy);
  }

  /** The attempt is given up: the session leaves the waiting map and is closed. */
  function HungUp(st: State, s: SessId, peer: Addr): State
    requires s in st.sessions
  {
    Close(DelWaiting(st, peer), s)
  }

  lemma HungUpInv(st: State, c: Stack, s: SessId, tls: bool, peer: Addr)
    requires Inv(st, c) && s !in st.sessions && peer !in st.tcpWaiting && peer !in st.tcpConnected
    ensures Inv(HungUp(Dialled(st, s, tls, peer), s, peer), c)
    ensures forall u: TaskId :: Placed(HungUp(Dialled(st, s, tls, peer), s, peer), u) == Placed(st, u)
  {
    hide Inv, Placed, Stored;
    var d := Dialled(st, s, tls, peer);
    DialledInv(st, c, s, tls, peer);
    DelWaitingInv(d, c, peer);
    var e := DelWaiting(d, peer);
    NewUnregistered(st, c, s, e);
    TcpNotPending(e, c, s);
    CloseInv(e, c, s);
    SameSums(d, e);
    SessSums(e, s, Close(e, s).sessions[s]);
    assert forall u: TaskId :: Upstream(e.sessions[s], u) == Upstream(Close(e, s).sessions[s], u);
  }

  lemma NewUnregistered(st: State, c: Stack, s: SessId, e: State)
    requires Inv(st, c) && s !in st.sessions
    requires forall a | a in e.tcpWaiting :: a in st.tcpWaiting && e.tcpWaiting[a] == st.tcpWaiting[a]
    requires e.tcpConnected == st.tcpConnected
    ensures Unregistered(e, s)
  {
    hide RefsOk, TasksOk, SessionsOk, LeadersOk, CountsOk;
  }

  /** The connect request is outstanding. */
  function Ringing(st: State, s: SessId, tls: bool, peer: Addr): State {
    SetConnecting(Dialled(st, s, tls, peer), s, true)
  }

  lemma RingingShape(st: State, c: Stack, s: SessId, tls: bool, peer: Addr)
    requires Inv(st, c) && s !in st.sessions && peer !in st.tcpWaiting && peer !in st.tcpConnected
    ensures var n := Ringing(st, s, tls, peer);
            && Frame(st, n, c.busy) && n.tasks == st.tasks
            && s in n.sessions && n.sessions[s] == TcpSession(tls, peer).(connecting := true)
            && !Unregistered(n, s)
  {
    hide Inv, Frame;
    var n := Ringing(st, s, tls, peer);
    DialledFrame(st, c, s, tls, peer, n);
    assert n.tcpWaiting[peer] == s;
  }

  lemma RingingInv(st: State, c: Stack, s: SessId, tls: bool, peer: Addr)
    requires Inv(st, c) && s !in st.sessions && peer !in st.tcpWaiting && peer !in st.tcpConnected
    ensures Inv(Ringing(st, s, tls, peer), c)
    ensures forall u: TaskId :: Placed(Ringing(st, s, tls, peer), u) == Placed(st, u)
  {
    hide Inv, Placed, Stored;
    var d := Dialled(st, s, tls, peer);
    DialledInv(st, c, s, tls, peer);
    SetConnectingInv(d, c, s, true);
    SessSums(d, s, SetConnecting(d, s, true).sessions[s]);
    SameUpstream(d.sessions[s], SetConnecting(d, s, true).sessions[s]);
  }

  lemma SameUpstream(y: Session, z: Session)
    requires z == y.(connecting := z.connecting, closing := z.closing)
    ensures forall u: TaskId :: Upstream(y, u) == Upstream(z, u)
  {
  }

  lemma HungUpShape(st: State, c: Stack, s: SessId, tls: bool, peer: Addr)
    requires Inv(st, c) && s !in st.sessions && peer !in st.tcpWaiting && peer !in st.tcpConnected
    ensures var n := HungUp(Dialled(st, s, tls, peer), s, peer); Frame(st, n, c.busy) && n.tasks == st.tasks
  {
    hide Inv, Frame;
    var n := HungUp(Dialled(st, s, tls, peer), s, peer);
    assert n.tcpWaiting == st.tcpWaiting;
    DialledFrame(st, c, s, tls, peer, n);
  }
}
