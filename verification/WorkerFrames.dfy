/** What a nested call may change behind the back of the C frames below it. */
module WorkerFrames {
  import opened Sums
  import opened WorkerState
  import opened WorkerMoves
  import opened WorkerLeads

  /** Apart from its reference count and its client, the task is as it was. */
  ghost predicate SameDriven(x: Task, y: Task) { y == x.(refs := y.refs, source := y.source) }

  ghost predicate SameCore(x: Task, y: Task) { y == x.(refs := y.refs, source := y.source, primary := y.primary) }

  /** Finished tasks stay finished. */
  ghost predicate Lasting(a: State, b: State) {
    forall t | t in a.tasks && t in b.tasks && a.tasks[t].finished :: b.tasks[t].finished
  }

  /** A closed session only loses entries, and one that was closed is empty. */
  ghost predicate Narrowed(y: Session, z: Session) {
    && (y.closing ==>
          && z.closing && (y.waiting == [] ==> z.waiting == [])
          && forall k | k in z.tasks :: k in y.tasks && y.tasks[k] == z.tasks[k])
    && (!y.closing && z.closing ==> z.tasks == map[] && z.waiting == [])
  }

  /** Nothing changed but tasks `ts`, reference counts, clients and client sessions. */
  ghost predicate Quiet(a: State, b: State, ts: set<TaskId>) {
    && b.next == a.next && b.subreqOut == a.subreqOut
    && b.tcpWaiting == a.tcpWaiting && b.tcpConnected == a.tcpConnected
    && b.tasks.Keys <= a.tasks.Keys && Lasting(a, b)
    && (forall u | u in b.tasks && u !in ts :: SameDriven(a.tasks[u], b.tasks[u]))
    && (forall u | u in a.tasks && u !in ts && !a.tasks[u].finished :: u in b.tasks)
    && b.sessions.Keys == a.sessions.Keys
    && (forall s | s in a.sessions && a.sessions[s].outgoing :: b.sessions[s] == a.sessions[s])
    && (forall s | s in a.sessions :: SameShape(a.sessions[s], b.sessions[s]) && Narrowed(a.sessions[s], b.sessions[s]))
    && (forall u: TaskId :: Placed(b, u) == Placed(a, u))
  }

  /** An upstream connection either keeps what it lists or was emptied and closed; one that is in
      neither connection map is left alone. */
  ghost predicate KeptSession(a: State, b: State, s: SessId)
    requires s in a.sessions && s in b.sessions
  {
    var y, z := a.sessions[s], b.sessions[s];
    && SameShape(y, z)
    && (y.outgoing && y.tcp ==>
          && z.connecting == y.connecting
          && (|| (z.closing && z.tasks == map[] && z.waiting == [] && Unregistered(b, s))
              || (z.closing == y.closing && (forall k | k in y.tasks :: k in z.tasks && z.tasks[k] == y.tasks[k])))
          && (Unregistered(a, s) ==> z == y && Unregistered(b, s)))
  }

  ghost predicate Frame(a: State, b: State, busy: set<TaskId>) {
    && b.next == a.next
    && b.tasks.Keys <= a.tasks.Keys && Lasting(a, b)
    && a.sessions.Keys <= b.sessions.Keys
    && (forall s | s in a.sessions :: KeptSession(a, b, s))
    && (forall t | t in busy && t in a.tasks :: t in b.tasks && SameDriven(a.tasks[t], b.tasks[t]))
  }

  lemma QuietRefl(a: State)
    ensures Quiet(a, a, {})
  {
  }

  lemma QuietThen(a: State, b: State, d: State, ts: set<TaskId>, us: set<TaskId>)
    requires Quiet(a, b, ts) && Quiet(b, d, us) && us <= ts
    ensures Quiet(a, d, ts)
  {
    hide Placed, Narrowed;
    forall s | s in a.sessions ensures Narrowed(a.sessions[s], d.sessions[s]) {
      NarrowedThen(a.sessions[s], b.sessions[s], d.sessions[s]);
    }
  }

  lemma NarrowedThen(x: Session, y: Session, z: Session)
    requires Narrowed(x, y) && Narrowed(y, z)
    ensures Narrowed(x, z)
  {
  }

  lemma QuietMore(a: State, b: State, ts: set<TaskId>, us: set<TaskId>)
    requires Quiet(a, b, ts) && ts <= us
    ensures Quiet(a, b, us)
  {
    hide Placed;
  }

  lemma QuietKeys(a: State, b: State, ts: set<TaskId>)
    requires Quiet(a, b, ts)
    ensures b.sessions.Keys == a.sessions.Keys
    ensures forall s | s in a.sessions :: SameShape(a.sessions[s], b.sessions[s])
    ensures forall s | s in a.sessions && a.sessions[s].outgoing :: b.sessions[s] == a.sessions[s]
    ensures b.tcpWaiting == a.tcpWaiting && b.tcpConnected == a.tcpConnected && b.subreqOut == a.subreqOut
    ensures forall u | u in b.tasks && u !in ts :: u in a.tasks && SameDriven(a.tasks[u], b.tasks[u])
    ensures forall u: TaskId :: Placed(b, u) == Placed(a, u)
  {
  }

  lemma FrameRefl(a: State, busy: set<TaskId>)
    ensures Frame(a, a, busy)
  {
  }

  lemma KeptTrans(a: State, b: State, d: State, s: SessId)
    requires s in a.sessions && s in b.sessions && s in d.sessions && KeptSession(a, b, s) && KeptSession(b, d, s)
    ensures KeptSession(a, d, s)
  {
    hide Unregistered;
  }

  lemma FrameTrans(a: State, b: State, d: State, busy: set<TaskId>)
    requires Frame(a, b, busy) && Frame(b, d, busy)
    ensures Frame(a, d, busy)
  {
    hide KeptSession;
    forall s | s in a.sessions ensures KeptSession(a, d, s) {
      KeptTrans(a, b, d, s);
    }
  }

  lemma FrameLess(a: State, b: State, busy: set<TaskId>, less: set<TaskId>)
    requires Frame(a, b, busy) && less <= busy
    ensures Frame(a, b, less)
  {
    hide KeptSession;
  }

  lemma QuietFrame(a: State, b: State, ts: set<TaskId>, c: Stack)
    requires Inv(a, c) && Quiet(a, b, ts) && ts !! c.busy
    ensures Frame(a, b, c.busy)
  {
    hide RefsOk, SessionsOk, LeadersOk, MapsOk, CountsOk, PendingOk, SourceOk, Placed;
    forall t | t in c.busy && t in a.tasks ensures t in b.tasks && SameDriven(a.tasks[t], b.tasks[t]) {
      assert TaskOk(a, c, t, a.tasks[t]);
    }
    forall s | s in a.sessions ensures KeptSession(a, b, s) {
    }
  }

  // ----- the single updates -----

  lemma QuietTask(a: State, t: TaskId, x: Task)
    requires t in a.tasks && x.waiting == a.tasks[t].waiting
    requires a.tasks[t].finished ==> x.finished
    ensures Quiet(a, SetTask(a, t, x), {t})
    ensures SameDriven(a.tasks[t], x) ==> Quiet(a, SetTask(a, t, x), {})
  {
    hide Placed, Stored;
    TaskSums(a, t, x);
  }

  lemma QuietUnref(a: State, c: Stack, t: TaskId)
    requires Inv(a, c) && t in c.held && t in a.tasks
    ensures Quiet(a, Unref(a, t), {})
  {
    hide Inv, Placed, Stored;
    if a.tasks[t].refs == 1 {
      FreeSafe(a, c, t);
      FreeSums(a, t);
    } else {
      QuietTask(a, t, Unref(a, t).tasks[t]);
    }
  }

  lemma QuietClient(a: State, s: SessId, z: Session)
    requires s in a.sessions && !a.sessions[s].outgoing && SameShape(a.sessions[s], z) && Narrowed(a.sessions[s], z)
    ensures Quiet(a, SetSess(a, s, z), {})
  {
    hide Placed, Stored;
    SessSums(a, s, z);
  }

  lemma QuietWrites(a: State, b: State)
    requires b == a.(writes := b.writes)
    ensures Quiet(a, b, {})
  {
  }

  // ----- frames around one upstream session -----

  /** Like `Frame`, but upstream session `s` itself may gain and lose entries. */
  ghost predicate FrameBut(a: State, b: State, busy: set<TaskId>, s: SessId) {
    && b.next == a.next
    && b.tasks.Keys <= a.tasks.Keys && Lasting(a, b)
    && a.sessions.Keys <= b.sessions.Keys
    && (forall r | r in a.sessions && r != s :: KeptSession(a, b, r))
    && (s in a.sessions ==>
          && SameShape(a.sessions[s], b.sessions[s]) && b.sessions[s].connecting == a.sessions[s].connecting
          && (Unregistered(a, s) ==> Unregistered(b, s)))
    && (forall t | t in busy && t in a.tasks :: t in b.tasks && SameDriven(a.tasks[t], b.tasks[t]))
  }

  lemma ButLasting(a: State, b: State, busy: set<TaskId>, s: SessId)
    requires FrameBut(a, b, busy, s)
    ensures Lasting(a, b) && b.tasks.Keys <= a.tasks.Keys
  {
  }

  /** No task appeared and none that had finished became unfinished. */
  ghost predicate Lasts(a: State, b: State) {
    b.tasks.Keys <= a.tasks.Keys && Lasting(a, b)
  }

  /** A session that serves as the established connection to `a`. */
  ghost predicate LivesAt(st: State, s: SessId, a: Addr) {
    OpenTo(st, s, a) && a in st.tcpConnected && st.tcpConnected[a] == s
  }

  /** A session that was closed and forgotten. */
  ghost predicate Dropped(st: State, s: SessId) {
    s in st.sessions && st.sessions[s].closing && Unregistered(st, s)
  }

  /** The task is finished or gone. */
  ghost predicate Over(st: State, t: TaskId) {
    t in st.tasks ==> st.tasks[t].finished
  }

  lemma LastsThen(a: State, b: State, d: State)
    requires Lasts(a, b) && Lasts(b, d)
    ensures Lasts(a, d)
  {
  }

  lemma OverLasts(a: State, b: State, t: TaskId)
    requires Over(a, t) && Lasts(a, b)
    ensures Over(b, t)
  {
  }

  lemma LastsRefl(a: State)
    ensures Lasts(a, a)
  {
  }

  /** Only the tasks count. */
  lemma SameLasts(a: State, b: State, d: State)
    requires a.tasks == b.tasks && (Lasts(b, d) || b == d)
    ensures Lasts(a, d)
  {
  }

  lemma ButLasts(a: State, b: State, busy: set<TaskId>, s: SessId)
    requires FrameBut(a, b, busy, s)
    ensures Lasts(a, b)
  {
  }

  lemma QuietLasts(a: State, b: State, ts: set<TaskId>)
    requires Quiet(a, b, ts)
    ensures Lasts(a, b)
  {
  }

  lemma FrameLasts(a: State, b: State, busy: set<TaskId>)
    requires Frame(a, b, busy)
    ensures Lasts(a, b)
  {
  }

  lemma ButShape(a: State, b: State, busy: set<TaskId>, s: SessId)
    requires FrameBut(a, b, busy, s) && s in a.sessions
    ensures s in b.sessions && SameShape(a.sessions[s], b.sessions[s])
  {
  }

  lemma ButRefl(a: State, busy: set<TaskId>, s: SessId)
    ensures FrameBut(a, a, busy, s)
  {
  }

  lemma ButTrans(a: State, b: State, d: State, busy: set<TaskId>, s: SessId)
    requires FrameBut(a, b, busy, s) && FrameBut(b, d, busy, s)
    ensures FrameBut(a, d, busy, s)
  {
    hide KeptSession, Unregistered;
    forall r | r in a.sessions && r != s ensures KeptSession(a, d, r) {
      KeptTrans(a, b, d, r);
    }
  }

  lemma QuietBut(a: State, b: State, ts: set<TaskId>, c: Stack, s: SessId)
    requires Inv(a, c) && Quiet(a, b, ts) && ts !! c.busy && s in a.sessions && a.sessions[s].outgoing
    ensures FrameBut(a, b, c.busy, s)
  {
    hide Inv, Quiet, Unregistered;
    QuietFrame(a, b, ts, c);
    QuietKeys(a, b, ts);
    SameUnregistered(a, b, s);
  }

  lemma SameUnregistered(a: State, b: State, s: SessId)
    requires b.tcpWaiting == a.tcpWaiting && b.tcpConnected == a.tcpConnected
    ensures Unregistered(a, s) == Unregistered(b, s)
  {
  }

  lemma ButSess(a: State, s: SessId, z: Session, busy: set<TaskId>)
    requires s in a.sessions && SameShape(a.sessions[s], z) && z.connecting == a.sessions[s].connecting
    ensures FrameBut(a, SetSess(a, s, z), busy, s)
  {
  }

  /** A registered session that was emptied and closed, or only gained entries, is framed after all. */
  lemma ButFrame(a: State, b: State, busy: set<TaskId>, s: SessId)
    requires FrameBut(a, b, busy, s) && s in a.sessions && s in b.sessions && !Unregistered(a, s)
    requires
      || (b.sessions[s].closing && b.sessions[s].tasks == map[] && b.sessions[s].waiting == [] && Unregistered(b, s))
      || (b.sessions[s].closing == a.sessions[s].closing
          && forall k | k in a.sessions[s].tasks :: k in b.sessions[s].tasks && b.sessions[s].tasks[k] == a.sessions[s].tasks[k])
    ensures Frame(a, b, busy)
  {
    forall r | r in a.sessions ensures KeptSession(a, b, r) {
    }
  }
}
