/** The single updates a callback is made of.  Each one moves a reference between the C stack and
    a table, or changes one flag, and keeps the invariant. */
module WorkerMoves {
  import opened Prelude
  import opened Sums
  import opened WorkerState

  function SetTask(st: State, t: TaskId, x: Task): State { st.(tasks := st.tasks[t := x]) }
  function SetSess(st: State, s: SessId, y: Session): State { st.(sessions := st.sessions[s := y]) }

  lemma TaskSums(st: State, t: TaskId, x: Task)
    requires t in st.tasks
    ensures forall u: TaskId :: Stored(SetTask(st, t, x), u) == Stored(st, u) - Followers(st.tasks[t], u) + Followers(x, u)
    ensures forall u: TaskId :: Placed(SetTask(st, t, x), u) == Placed(st, u) - Followers(st.tasks[t], u) + Followers(x, u)
  {
    SumUpdate(st.tasks, t, x, Followers);
  }

  lemma SessSums(st: State, s: SessId, y: Session)
    requires s in st.sessions
    ensures forall u: TaskId :: Stored(SetSess(st, s, y), u) == Stored(st, u) - Listed(st.sessions[s], u) + Listed(y, u)
    ensures forall u: TaskId :: Placed(SetSess(st, s, y), u) == Placed(st, u) - Upstream(st.sessions[s], u) + Upstream(y, u)
    ensures forall u: TaskId :: Listed(st.sessions[s], u) <= Stored(st, u) && Upstream(st.sessions[s], u) <= Placed(st, u)
  {
    hide Sum, Listed, Upstream;
    SumUpdate(st.sessions, s, y, Listed);
    SumUpdate(st.sessions, s, y, Upstream);
    SumDel(st.sessions, s, Listed);
    SumDel(st.sessions, s, Upstream);
  }

  /** A table entry is a stored reference, and a place when the session is an upstream TCP one. */
  lemma EntryStored(st: State, s: SessId, k: nat)
    requires s in st.sessions && k in st.sessions[s].tasks
    ensures Stored(st, st.sessions[s].tasks[k]) > 0
    ensures st.sessions[s].outgoing && st.sessions[s].tcp ==> Placed(st, st.sessions[s].tasks[k]) > 0
  {
    var t := st.sessions[s].tasks[k];
    SumTake(st.sessions[s].tasks, k, Is, t);
    SumTake(st.sessions, s, Listed, t);
    SumTake(st.sessions, s, Upstream, t);
  }

  // ----- editing one task, its followers aside -----

  ghost predicate SameElse(c: Stack, d: Stack, t: TaskId) {
    && (forall u: TaskId | u != t :: c.held[u] == d.held[u])
    && (forall u: TaskId | u != t :: u in c.busy <==> u in d.busy)
    && (forall u: TaskId | u != t :: u in c.loose <==> u in d.loose)
    && (forall u: TaskId | u != t :: u in c.adrift <==> u in d.adrift)
  }

  ghost predicate NoUpstreamEntry(st: State, t: TaskId) {
    forall s, k | s in st.sessions && st.sessions[s].outgoing && k in st.sessions[s].tasks :: st.sessions[s].tasks[k] != t
  }

  ghost predicate NoClientEntry(st: State, t: TaskId) {
    forall s | s in st.sessions && !st.sessions[s].outgoing :: t !in st.sessions[s].tasks
  }

  lemma TaskEditRefs(st: State, c: Stack, d: Stack, t: TaskId, x: Task)
    requires RefsOk(st, c) && t in st.tasks && SameElse(c, d, t)
    requires x.waiting == st.tasks[t].waiting
    requires x.refs > 0
    requires x.refs - d.held[t] - (if x.primary then 1 else 0)
          == st.tasks[t].refs - c.held[t] - (if st.tasks[t].primary then 1 else 0)
    ensures RefsOk(SetTask(st, t, x), d)
  {
    hide Stored;
    TaskSums(st, t, x);
  }

  lemma TaskEditTask(st: State, c: Stack, d: Stack, t: TaskId, x: Task, u: TaskId, y: Task)
    requires t in st.tasks && (u == t || SameElse(c, d, t)) && Placed(SetTask(st, t, x), u) == Placed(st, u)
    requires var e := if u == t then d else c; TaskOk(st, e, u, y) && PendingOk(st, e, u, y) && SourceOk(st, e, u, y)
    ensures var n := SetTask(st, t, x); TaskOk(n, d, u, y) && PendingOk(n, d, u, y) && SourceOk(n, d, u, y)
  {
    hide Placed;
  }

  lemma TaskEditTasks(st: State, c: Stack, d: Stack, t: TaskId, x: Task)
    requires TasksOk(st, c) && t in st.tasks && SameElse(c, d, t)
    requires x.waiting == st.tasks[t].waiting
    requires TaskOk(st, d, t, x) && PendingOk(st, d, t, x) && SourceOk(st, d, t, x)
    ensures TasksOk(SetTask(st, t, x), d)
  {
    hide Placed, Stored, TaskOk, PendingOk, SourceOk, SameElse;
    TaskSums(st, t, x);
    var n := SetTask(st, t, x);
    forall u | u in n.tasks ensures TaskOk(n, d, u, n.tasks[u]) && PendingOk(n, d, u, n.tasks[u]) && SourceOk(n, d, u, n.tasks[u]) {
      TaskEditTask(st, c, d, t, x, u, n.tasks[u]);
    }
  }

  lemma TaskEditSessions(st: State, t: TaskId, x: Task)
    requires SessionsOk(st) && t in st.tasks
    requires x.msgid == st.tasks[t].msgid || NoUpstreamEntry(st, t)
    requires x.source == st.tasks[t].source || NoClientEntry(st, t)
    requires forall s | s in st.tasks[t].pending && s !in x.pending :: s in st.sessions && st.sessions[s].tasks == map[]
    requires st.tasks[t].finished ==> x.finished
    ensures SessionsOk(SetTask(st, t, x))
  {
    var n := SetTask(st, t, x);
    forall w | w in n.writes ensures WriteOk(n, n.writes[w]) {
      assert WriteOk(st, st.writes[w]);
    }
    forall s | s in n.sessions ensures SessOk(n, s, n.sessions[s]) {
      assert SessOk(st, s, st.sessions[s]);
      forall k | k in n.sessions[s].tasks ensures EntryOk(n, s, n.sessions[s], k) {
        assert EntryOk(st, s, st.sessions[s], k);
      }
    }
  }

  lemma TaskEditRest(st: State, c: Stack, d: Stack, t: TaskId, x: Task)
    requires LeadersOk(st, c) && MapsOk(st) && CountsOk(st) && t in st.tasks && SameElse(c, d, t)
    requires x.waiting == st.tasks[t].waiting
    requires st.tasks[t].leading && t !in c.busy ==> x.leading && x.key == st.tasks[t].key && t !in d.busy
    ensures LeadersOk(SetTask(st, t, x), d) && MapsOk(SetTask(st, t, x)) && CountsOk(SetTask(st, t, x))
  {
    var n := SetTask(st, t, x);
    assert n.tasks.Keys == st.tasks.Keys;
    assert forall l: TaskId, f: TaskId :: FollowerCount(n, l, f) == FollowerCount(st, l, f);
  }

  /** Replacing task `t` by `x`, which has the same followers, keeps the invariant
      when the new record is right by itself and nothing else relies on what changed. */
  lemma TaskEdit(st: State, c: Stack, d: Stack, t: TaskId, x: Task)
    requires Inv(st, c) && t in st.tasks && SameElse(c, d, t)
    requires x.waiting == st.tasks[t].waiting
    requires forall s | s in st.tasks[t].pending && s !in x.pending :: s in st.sessions && st.sessions[s].tasks == map[]
    requires x.refs > 0 && (st.tasks[t].finished ==> x.finished)
    requires x.refs - d.held[t] - (if x.primary then 1 else 0)
          == st.tasks[t].refs - c.held[t] - (if st.tasks[t].primary then 1 else 0)
    requires TaskOk(st, d, t, x) && PendingOk(st, d, t, x) && SourceOk(st, d, t, x)
    requires x.msgid == st.tasks[t].msgid || NoUpstreamEntry(st, t)
    requires x.source == st.tasks[t].source || NoClientEntry(st, t)
    requires st.tasks[t].leading && t !in c.busy ==> x.leading && x.key == st.tasks[t].key && t !in d.busy
    ensures Inv(SetTask(st, t, x), d)
  {
    TaskEditRefs(st, c, d, t, x);
    TaskEditTasks(st, c, d, t, x);
    TaskEditSessions(st, t, x);
    TaskEditRest(st, c, d, t, x);
  }

  /** What the invariant says about task `t` alone. */
  lemma At(st: State, c: Stack, t: TaskId)
    requires Inv(st, c) && t in st.tasks
    ensures TaskOk(st, c, t, st.tasks[t]) && PendingOk(st, c, t, st.tasks[t]) && SourceOk(st, c, t, st.tasks[t])
    ensures st.tasks[t].refs == Holders(st, c, t) && st.tasks[t].refs > 0
  {
  }

  lemma HeldAlive(st: State, c: Stack, t: TaskId)
    requires Inv(st, c) && t in c.held
    ensures t in st.tasks
  {
  }

  // ----- editing one session -----

  ghost predicate Unregistered(st: State, s: SessId) {
    && (forall a | a in st.tcpWaiting :: st.tcpWaiting[a] != s)
    && (forall a | a in st.tcpConnected :: st.tcpConnected[a] != s)
  }

  ghost predicate NotPending(st: State, s: SessId) {
    forall t | t in st.tasks :: s !in st.tasks[t].pending
  }

  ghost predicate SameShape(y: Session, z: Session) {
    y.outgoing == z.outgoing && y.tcp == z.tcp && y.tls == z.tls && y.owner == z.owner && y.peer == z.peer
  }

  /** Moving the difference between two session records to or from the C stack. */
  ghost predicate Balanced(c: Stack, d: Stack, y: Session, z: Session) {
    && d.busy == c.busy && d.loose == c.loose && d.adrift == c.adrift
    && (forall u: TaskId :: Listed(z, u) + d.held[u] == Listed(y, u) + c.held[u])
  }

  /** Adding a place to `u` is allowed only when it has none yet. */
  ghost predicate PlacesOk(st: State, c: Stack, y: Session, z: Session) {
    forall u | u in st.tasks ::
      || Upstream(z, u) <= Upstream(y, u)
      || (Upstream(z, u) <= Upstream(y, u) + 1 && Placed(st, u) == 0
          && st.tasks[u].pending == [] && !st.tasks[u].leading && u !in c.busy)
  }

  ghost predicate StaysReachable(st: State, c: Stack, s: SessId, z: Session)
    requires s in st.sessions
  {
    && (forall t | t in st.tasks && st.tasks[t].source == Some(s) && st.sessions[s].tcp && t in st.sessions[s].tasks ::
          t in z.tasks || t in c.adrift || st.tasks[t].finished)
    && (forall t | t in st.tasks && s in st.tasks[t].pending :: t in c.loose || st.tasks[t].msgid in z.tasks)
  }

  lemma SessEditRefs(st: State, c: Stack, d: Stack, s: SessId, z: Session)
    requires RefsOk(st, c) && s in st.sessions && Balanced(c, d, st.sessions[s], z)
    ensures RefsOk(SetSess(st, s, z), d)
  {
    hide Listed, Stored;
    SessSums(st, s, z);
    var n := SetSess(st, s, z);
    assert forall u: TaskId :: Stored(n, u) + d.held[u] == Stored(st, u) + c.held[u];
  }

  lemma SessEditTask(st: State, c: Stack, d: Stack, s: SessId, z: Session, u: TaskId)
    requires u in st.tasks && s in st.sessions && Balanced(c, d, st.sessions[s], z)
    requires TaskOk(st, c, u, st.tasks[u]) && PendingOk(st, c, u, st.tasks[u]) && SourceOk(st, c, u, st.tasks[u])
    requires SameShape(st.sessions[s], z) && PlacesOk(st, c, st.sessions[s], z) && StaysReachable(st, c, s, z)
    requires z.closing ==> st.sessions[s].closing || NotPending(st, s)
    ensures var n := SetSess(st, s, z);
            TaskOk(n, d, u, n.tasks[u]) && PendingOk(n, d, u, n.tasks[u]) && SourceOk(n, d, u, n.tasks[u])
  {
    hide Sum, Listed, Placed;
    SessSums(st, s, z);
  }

  lemma SessEditTasks(st: State, c: Stack, d: Stack, s: SessId, z: Session)
    requires TasksOk(st, c) && s in st.sessions && Balanced(c, d, st.sessions[s], z)
    requires SameShape(st.sessions[s], z) && PlacesOk(st, c, st.sessions[s], z) && StaysReachable(st, c, s, z)
    requires z.closing ==> st.sessions[s].closing || NotPending(st, s)
    ensures TasksOk(SetSess(st, s, z), d)
  {
    hide TaskOk, PendingOk, SourceOk, Balanced, PlacesOk, StaysReachable, NotPending, SameShape;
    forall u | u in st.tasks
      ensures var n := SetSess(st, s, z);
              TaskOk(n, d, u, n.tasks[u]) && PendingOk(n, d, u, n.tasks[u]) && SourceOk(n, d, u, n.tasks[u])
    {
      SessEditTask(st, c, d, s, z, u);
    }
  }

  lemma SessEditSessions(st: State, s: SessId, z: Session)
    requires SessionsOk(st) && s in st.sessions && SessOk(st, s, z) && SameShape(st.sessions[s], z)
    ensures SessionsOk(SetSess(st, s, z))
  {
    var n := SetSess(st, s, z);
    forall w | w in n.writes ensures WriteOk(n, n.writes[w]) {
      assert WriteOk(st, st.writes[w]);
    }
    forall r | r in n.sessions ensures SessOk(n, r, n.sessions[r]) {
      assert SessOk(st, r, n.sessions[r]);
      forall k | k in n.sessions[r].tasks ensures EntryOk(n, r, n.sessions[r], k) {
        assert EntryOk(st, r, n.sessions[r], k);
      }
    }
  }

  ghost predicate NotWaited(st: State, s: SessId) {
    forall a | a in st.tcpWaiting :: st.tcpWaiting[a] != s
  }

  lemma SessEditRest(st: State, c: Stack, d: Stack, s: SessId, z: Session)
    requires LeadersOk(st, c) && MapsOk(st) && CountsOk(st)
    requires s in st.sessions && d.busy == c.busy && SameShape(st.sessions[s], z)
    requires z.closing ==> st.sessions[s].closing || Unregistered(st, s)
    requires z.connecting ==> st.sessions[s].connecting || Unregistered(st, s) || st.sessions[s].peer !in st.tcpConnected
    requires z.tasks == map[] || st.sessions[s].tasks != map[] || NotWaited(st, s)
    ensures LeadersOk(SetSess(st, s, z), d) && MapsOk(SetSess(st, s, z)) && CountsOk(SetSess(st, s, z))
  {
    var n := SetSess(st, s, z);
    assert forall l: TaskId, f: TaskId :: FollowerCount(n, l, f) == FollowerCount(st, l, f);
  }

  /** Replacing session `s` by `z` keeps the invariant when references balance and nobody relies on
      what disappears. */
  lemma SessEdit(st: State, c: Stack, d: Stack, s: SessId, z: Session)
    requires Inv(st, c) && s in st.sessions && Balanced(c, d, st.sessions[s], z)
    requires SameShape(st.sessions[s], z) && SessOk(st, s, z)
    requires PlacesOk(st, c, st.sessions[s], z) && StaysReachable(st, c, s, z)
    requires z.closing ==> st.sessions[s].closing || (Unregistered(st, s) && NotPending(st, s))
    requires z.connecting ==> st.sessions[s].connecting || Unregistered(st, s) || st.sessions[s].peer !in st.tcpConnected
    requires z.tasks == map[] || st.sessions[s].tasks != map[] || NotWaited(st, s)
    ensures Inv(SetSess(st, s, z), d)
  {
    SessEditRefs(st, c, d, s, z);
    SessEditTasks(st, c, d, s, z);
    SessEditSessions(st, s, z);
    SessEditRest(st, c, d, s, z);
  }

  // ----- reference counting -----

  function Ref(st: State, t: TaskId): State
    requires t in st.tasks
  {
    SetTask(st, t, st.tasks[t].(refs := st.tasks[t].refs + 1))
  }

  function Unref(st: State, t: TaskId): State
    requires t in st.tasks
  {
    var x := st.tasks[t];
    if x.refs - 1 == 0 then
      st.(tasks := st.tasks - {t}, freed := st.freed + {t}, concurrent := st.concurrent - 1,
          rconcurrent := if x.primary then st.rconcurrent else st.rconcurrent - 1)
    else
      SetTask(st, t, x.(refs := x.refs - 1))
  }

  lemma RefLocal(st: State, c: Stack, d: Stack, t: TaskId, x: Task, y: Task)
    requires TaskOk(st, c, t, x) && PendingOk(st, c, t, x) && SourceOk(st, c, t, x)
    requires d.busy == c.busy && d.loose == c.loose && d.adrift == c.adrift && y == x.(refs := y.refs)
    requires d.held == c.held + multiset{t} || c.held == d.held + multiset{t}
    ensures TaskOk(st, d, t, y) && PendingOk(st, d, t, y) && SourceOk(st, d, t, y) && SameElse(c, d, t)
  {
  }

  lemma RefInv(st: State, c: Stack, t: TaskId)
    requires Inv(st, c) && t in st.tasks
    ensures Inv(Ref(st, t), c.(held := c.held + multiset{t}))
  {
    hide Inv, TaskOk, PendingOk, SourceOk, SameElse;
    var d := c.(held := c.held + multiset{t});
    At(st, c, t);
    RefLocal(st, c, d, t, st.tasks[t], Ref(st, t).tasks[t]);
    TaskEdit(st, c, d, t, Ref(st, t).tasks[t]);
  }

  lemma FreeSafe(st: State, c: Stack, t: TaskId)
    requires Inv(st, c) && t in c.held && st.tasks[t].refs == 1
    ensures !st.tasks[t].primary && Stored(st, t) == 0 && c.held[t] == 1
    ensures st.tasks[t].finished && !st.tasks[t].leading && st.tasks[t].waiting == [] && t !in c.busy
    ensures forall s, k | s in st.sessions && k in st.sessions[s].tasks :: st.sessions[s].tasks[k] != t
    ensures forall w | w in st.writes :: st.writes[w].task != t
  {
    At(st, c, t);
    forall w | w in st.writes ensures st.writes[w].task != t {
      SumTake(st.writes, w, InFlight, t);
    }
    forall s, k | s in st.sessions && k in st.sessions[s].tasks
      ensures st.sessions[s].tasks[k] != t
    {
      EntryStored(st, s, k);
    }
  }

  lemma FreeSums(st: State, t: TaskId)
    requires t in st.tasks && st.tasks[t].refs == 1 && st.tasks[t].waiting == []
    ensures forall u: TaskId :: Stored(Unref(st, t), u) == Stored(st, u) && Placed(Unref(st, t), u) == Placed(st, u)
  {
    hide Sum;
    SumDel(st.tasks, t, Followers);
  }

  lemma FreeRefs(st: State, c: Stack, d: Stack, t: TaskId)
    requires RefsOk(st, c) && t in c.held && st.tasks[t].refs == 1 && st.tasks[t].waiting == []
    requires Stored(st, t) == 0 && d == c.(held := c.held - multiset{t}) && c.held[t] == 1
    ensures RefsOk(Unref(st, t), d)
  {
    hide Stored, Placed;
    FreeSums(st, t);
    var n := Unref(st, t);
    forall u | u in n.tasks ensures n.tasks[u].refs == Holders(n, d, u) && n.tasks[u].refs > 0 {
      assert n.tasks[u] == st.tasks[u] && d.held[u] == c.held[u];
    }
    forall u: TaskId | Stored(n, u) > 0 ensures u in n.tasks {
      assert Stored(st, u) > 0;
    }
    assert d.held[t] == 0;
  }

  lemma FreeTask(st: State, c: Stack, d: Stack, t: TaskId, u: TaskId, x: Task)
    requires TaskOk(st, c, u, x) && PendingOk(st, c, u, x) && SourceOk(st, c, u, x)
    requires t in st.tasks && st.tasks[t].refs == 1 && Placed(Unref(st, t), u) == Placed(st, u)
    requires d == c.(held := c.held - multiset{t})
    ensures var n := Unref(st, t); TaskOk(n, d, u, x) && PendingOk(n, d, u, x) && SourceOk(n, d, u, x)
  {
    hide Placed;
  }

  lemma FreeTasks(st: State, c: Stack, d: Stack, t: TaskId)
    requires TasksOk(st, c) && t in st.tasks
    requires st.tasks[t].refs == 1 && st.tasks[t].waiting == []
    requires d == c.(held := c.held - multiset{t})
    ensures TasksOk(Unref(st, t), d)
  {
    hide Placed, Stored, TaskOk, PendingOk, SourceOk;
    FreeSums(st, t);
    var n := Unref(st, t);
    forall u | u in n.tasks ensures TaskOk(n, d, u, n.tasks[u]) && PendingOk(n, d, u, n.tasks[u]) && SourceOk(n, d, u, n.tasks[u]) {
      FreeTask(st, c, d, t, u, st.tasks[u]);
    }
  }

  lemma FreeRest(st: State, c: Stack, d: Stack, t: TaskId)
    requires SessionsOk(st) && LeadersOk(st, c) && MapsOk(st) && CountsOk(st) && t in st.tasks
    requires st.tasks[t].refs == 1 && !st.tasks[t].primary && !st.tasks[t].leading && st.tasks[t].waiting == []
    requires d == c.(held := c.held - multiset{t}) && t !in c.busy
    requires forall s, k | s in st.sessions && k in st.sessions[s].tasks :: st.sessions[s].tasks[k] != t
    requires forall w | w in st.writes :: st.writes[w].task != t
    ensures var n := Unref(st, t); SessionsOk(n) && LeadersOk(n, d) && MapsOk(n) && CountsOk(n)
  {
    var n := Unref(st, t);
    forall w | w in n.writes ensures WriteOk(n, n.writes[w]) {
      assert WriteOk(st, st.writes[w]);
    }
    forall s | s in n.sessions ensures SessOk(n, s, n.sessions[s]) {
      assert SessOk(st, s, st.sessions[s]);
      forall k | k in n.sessions[s].tasks ensures EntryOk(n, s, n.sessions[s], k) {
        assert EntryOk(st, s, st.sessions[s], k);
      }
    }
    assert forall l: TaskId, f: TaskId :: FollowerCount(n, l, f) == FollowerCount(st, l, f);
    assert n.tasks.Keys == st.tasks.Keys - {t};
  }

  /** Dropping a reference keeps the invariant; the last one frees the task together with its request. */
  lemma UnrefInv(st: State, c: Stack, t: TaskId)
    requires Inv(st, c) && t in c.held
    ensures t in st.tasks
    ensures Inv(Unref(st, t), c.(held := c.held - multiset{t}))
  {
    hide TaskOk, PendingOk, SourceOk, SameElse, TasksOk, SessionsOk, LeadersOk, MapsOk, CountsOk;
    var d := c.(held := c.held - multiset{t});
    HeldAlive(st, c, t);
    At(st, c, t);
    if st.tasks[t].refs == 1 {
      FreeSafe(st, c, t);
      FreeRefs(st, c, d, t);
      FreeTasks(st, c, d, t);
      FreeRest(st, c, d, t);
    } else {
      RefLocal(st, c, d, t, st.tasks[t], Unref(st, t).tasks[t]);
      TaskEdit(st, c, d, t, Unref(st, t).tasks[t]);
    }
  }

  // ----- what a frame knows about its tasks -----

  /** Only what the stack says about `t` differs. */
  lemma StackTasks(st: State, c: Stack, d: Stack, t: TaskId)
    requires TasksOk(st, c) && SameElse(c, d, t)
    requires t in st.tasks ==> TaskOk(st, d, t, st.tasks[t]) && PendingOk(st, d, t, st.tasks[t]) && SourceOk(st, d, t, st.tasks[t])
    ensures TasksOk(st, d)
  {
    hide Placed;
    forall u | u in st.tasks
      ensures TaskOk(st, d, u, st.tasks[u]) && PendingOk(st, d, u, st.tasks[u]) && SourceOk(st, d, u, st.tasks[u])
    {
      if u != t {
        assert TaskOk(st, c, u, st.tasks[u]) && PendingOk(st, c, u, st.tasks[u]) && SourceOk(st, c, u, st.tasks[u]);
      }
    }
  }

  lemma StackInv(st: State, c: Stack, d: Stack, t: TaskId)
    requires Inv(st, c) && SameElse(c, d, t) && d.held == c.held
    requires t in st.tasks ==> TaskOk(st, d, t, st.tasks[t]) && PendingOk(st, d, t, st.tasks[t]) && SourceOk(st, d, t, st.tasks[t])
    requires t in d.busy ==> t in c.busy || (t in st.tasks && !st.tasks[t].leading)
    ensures Inv(st, d)
  {
    hide TasksOk, TaskOk, PendingOk, SourceOk, SessionsOk, MapsOk, CountsOk;
    StackTasks(st, c, d, t);
  }

  /** A task taken out of the table of one of its UDP sessions. */
  lemma Loosen(st: State, c: Stack, t: TaskId)
    requires Inv(st, c)
    ensures Inv(st, c.(loose := c.loose + {t}))
  {
    hide Inv, Holders, Placed;
    if t in st.tasks { At(st, c, t); }
    StackInv(st, c, c.(loose := c.loose + {t}), t);
  }

  lemma Tighten(st: State, c: Stack, t: TaskId)
    requires Inv(st, c) && (t in st.tasks ==> PendingOk(st, c.(loose := c.loose - {t}), t, st.tasks[t]))
    ensures Inv(st, c.(loose := c.loose - {t}))
  {
    hide Inv, Holders, Placed;
    if t in st.tasks { At(st, c, t); }
    StackInv(st, c, c.(loose := c.loose - {t}), t);
  }

  /** A task taken out of its client's table. */
  lemma CastOff(st: State, c: Stack, t: TaskId)
    requires Inv(st, c)
    ensures Inv(st, c.(adrift := c.adrift + {t}))
  {
    hide Inv, Holders, Placed;
    if t in st.tasks { At(st, c, t); }
    StackInv(st, c, c.(adrift := c.adrift + {t}), t);
  }

  lemma Moor(st: State, c: Stack, t: TaskId)
    requires Inv(st, c) && (t in st.tasks ==> SourceOk(st, c.(adrift := c.adrift - {t}), t, st.tasks[t]))
    ensures Inv(st, c.(adrift := c.adrift - {t}))
  {
    hide Inv, Holders, Placed;
    if t in st.tasks { At(st, c, t); }
    StackInv(st, c, c.(adrift := c.adrift - {t}), t);
  }

  /** A frame starts driving an unfinished task that nobody else is going to step. */
  lemma Drive(st: State, c: Stack, t: TaskId)
    requires Inv(st, c) && t in st.tasks
    requires !st.tasks[t].finished && !st.tasks[t].leading && Placed(st, t) == 0
    ensures Inv(st, c.(busy := c.busy + {t}))
  {
    hide Inv, Holders, Placed;
    At(st, c, t);
    StackInv(st, c, c.(busy := c.busy + {t}), t);
  }

  lemma Undrive(st: State, c: Stack, t: TaskId)
    requires Inv(st, c) && (t in st.tasks ==> !st.tasks[t].leading)
    ensures Inv(st, c.(busy := c.busy - {t}))
  {
    hide Inv, Holders, Placed;
    if t in st.tasks { At(st, c, t); }
    StackInv(st, c, c.(busy := c.busy - {t}), t);
  }

  // ----- task flags -----

  function TakePrimary(st: State, t: TaskId): State
    requires t in st.tasks
  {
    SetTask(st, t, st.tasks[t].(primary := false))
  }

  lemma TakePrimaryInv(st: State, c: Stack, t: TaskId)
    requires Inv(st, c) && t in st.tasks && st.tasks[t].finished && st.tasks[t].primary
    ensures Inv(TakePrimary(st, t), c.(held := c.held + multiset{t}))
  {
    hide Inv, Holders;
    var d := c.(held := c.held + multiset{t});
    At(st, c, t);
    TaskEdit(st, c, d, t, st.tasks[t].(primary := false));
  }

  function Finish(st: State, t: TaskId): State
    requires t in st.tasks
  {
    SetTask(st, t, st.tasks[t].(finished := true))
  }

  lemma FinishInv(st: State, c: Stack, t: TaskId)
    requires Inv(st, c) && t in st.tasks && t !in c.busy && t in c.adrift
    requires !st.tasks[t].leading && st.tasks[t].pending == []
    ensures Inv(Finish(st, t), c)
  {
    hide Inv, Holders;
    At(st, c, t);
    TaskEdit(st, c, c, t, st.tasks[t].(finished := true));
  }

  function Rewrite(st: State, t: TaskId, key: Option<Key>, msgid: nat): State
    requires t in st.tasks
  {
    SetTask(st, t, st.tasks[t].(key := key, msgid := msgid))
  }

  lemma NowhereUpstream(st: State, c: Stack, t: TaskId)
    requires Inv(st, c) && t in st.tasks && Placed(st, t) == 0 && st.tasks[t].pending == []
    ensures NoUpstreamEntry(st, t)
  {
    hide Placed, Stored, RefsOk, TasksOk, LeadersOk, MapsOk, CountsOk;
    forall s, k | s in st.sessions && st.sessions[s].outgoing && k in st.sessions[s].tasks
      ensures st.sessions[s].tasks[k] != t
    {
      EntryStored(st, s, k);
      assert SessOk(st, s, st.sessions[s]);
      assert EntryOk(st, s, st.sessions[s], k);
    }
  }

  lemma RewriteInv(st: State, c: Stack, t: TaskId, key: Option<Key>, msgid: nat)
    requires Inv(st, c) && t in st.tasks && msgid < 0x1_0000
    requires !st.tasks[t].leading && st.tasks[t].pending == [] && Placed(st, t) == 0
    ensures Inv(Rewrite(st, t, key, msgid), c)
  {
    hide Inv, Holders, Placed;
    At(st, c, t);
    NowhereUpstream(st, c, t);
    TaskEdit(st, c, c, t, st.tasks[t].(key := key, msgid := msgid));
  }

  function Orphan(st: State, t: TaskId): State
    requires t in st.tasks
  {
    SetTask(st, t, st.tasks[t].(source := None))
  }

  lemma NowhereClient(st: State, c: Stack, t: TaskId)
    requires Inv(st, c) && t in st.tasks
    requires st.tasks[t].source.Some? ==> st.tasks[t].source.value in st.sessions && t !in st.sessions[st.tasks[t].source.value].tasks
    ensures NoClientEntry(st, t)
  {
    hide RefsOk, TasksOk, LeadersOk, MapsOk, CountsOk;
    forall s | s in st.sessions && !st.sessions[s].outgoing
      ensures t !in st.sessions[s].tasks
    {
      assert SessOk(st, s, st.sessions[s]);
    }
  }

  lemma OrphanInv(st: State, c: Stack, t: TaskId)
    requires Inv(st, c) && t in st.tasks
    requires st.tasks[t].source.Some? ==> st.tasks[t].source.value in st.sessions && t !in st.sessions[st.tasks[t].source.value].tasks
    ensures Inv(Orphan(st, t), c)
  {
    hide Inv, Holders, Placed;
    At(st, c, t);
    NowhereClient(st, c, t);
    TaskEdit(st, c, c, t, st.tasks[t].(source := None));
  }

  // ----- session tables and queues -----

  lemma TcpNotPending(st: State, c: Stack, s: SessId)
    requires Inv(st, c) && s in st.sessions && st.sessions[s].tcp
    ensures NotPending(st, s)
  {
    hide RefsOk, SessionsOk, LeadersOk, MapsOk, CountsOk, TaskOk, SourceOk;
    forall u | u in st.tasks ensures s !in st.tasks[u].pending {
      assert PendingOk(st, c, u, st.tasks[u]);
    }
  }

  function TablePut(st: State, s: SessId, k: nat, t: TaskId): State
    requires s in st.sessions
  {
    SetSess(st, s, st.sessions[s].(tasks := st.sessions[s].tasks[k := t]))
  }

  function TableTake(st: State, s: SessId, k: nat): State
    requires s in st.sessions
  {
    SetSess(st, s, st.sessions[s].(tasks := st.sessions[s].tasks - {k}))
  }

  function QueuePush(st: State, s: SessId, t: TaskId): State
    requires s in st.sessions
  {
    SetSess(st, s, st.sessions[s].(waiting := st.sessions[s].waiting + [t]))
  }

  function QueuePop(st: State, s: SessId): State
    requires s in st.sessions && st.sessions[s].waiting != []
  {
    SetSess(st, s, st.sessions[s].(waiting := st.sessions[s].waiting[1..]))
  }

  /** A task nobody else is going to step. */
  ghost predicate Free(st: State, c: Stack, t: TaskId) {
    && t in st.tasks && Placed(st, t) == 0 && t !in c.busy
    && st.tasks[t].pending == [] && !st.tasks[t].leading
  }

  lemma StillPending(st: State, c: Stack, s: SessId, z: Session)
    requires Inv(st, c) && s in st.sessions && st.sessions[s].tasks.Keys <= z.tasks.Keys
    ensures forall t | t in st.tasks && s in st.tasks[t].pending :: t in c.loose || st.tasks[t].msgid in z.tasks
  {
    hide RefsOk, SessionsOk, LeadersOk, MapsOk, CountsOk, TaskOk, SourceOk;
    forall t | t in st.tasks && s in st.tasks[t].pending ensures t in c.loose || st.tasks[t].msgid in z.tasks {
      assert PendingOk(st, c, t, st.tasks[t]);
    }
  }

  lemma PutBalance(c: Stack, y: Session, k: nat, t: TaskId)
    requires k !in y.tasks && t in c.held
    ensures Balanced(c, c.(held := c.held - multiset{t}), y, y.(tasks := y.tasks[k := t]))
    ensures forall u: TaskId :: Listed(y.(tasks := y.tasks[k := t]), u) == Listed(y, u) + Is(t, u)
  {
    hide Sum;
    SumNew(y.tasks, k, t, Is);
  }

  lemma TakeBalance(c: Stack, y: Session, k: nat)
    requires k in y.tasks
    ensures Balanced(c, c.(held := c.held + multiset{y.tasks[k]}), y, y.(tasks := y.tasks - {k}))
    ensures forall u: TaskId :: Listed(y.(tasks := y.tasks - {k}), u) == Listed(y, u) - Is(y.tasks[k], u)
  {
    hide Sum;
    SumDel(y.tasks, k, Is);
  }

  lemma PutPlaces(st: State, c: Stack, s: SessId, k: nat, t: TaskId)
    requires s in st.sessions && k !in st.sessions[s].tasks && t in c.held
    requires st.sessions[s].outgoing && st.sessions[s].tcp ==> Free(st, c, t)
    ensures PlacesOk(st, c, st.sessions[s], TablePut(st, s, k, t).sessions[s])
  {
    hide Sum, Listed, Placed;
    PutBalance(c, st.sessions[s], k, t);
  }

  lemma TablePutOk(st: State, c: Stack, s: SessId, k: nat, t: TaskId)
    requires Inv(st, c) && s in st.sessions && t in c.held && k !in st.sessions[s].tasks
    requires !st.sessions[s].connecting && t in st.tasks
    requires if st.sessions[s].outgoing then st.tasks[t].msgid == k && (!st.sessions[s].tcp ==> s in st.tasks[t].pending)
             else st.sessions[s].tcp && t == k && st.tasks[t].source == Some(s)
    ensures SessOk(st, s, TablePut(st, s, k, t).sessions[s])
    ensures StaysReachable(st, c, s, TablePut(st, s, k, t).sessions[s])
  {
    hide RefsOk, LeadersOk, MapsOk, CountsOk;
    var y := st.sessions[s];
    var z := TablePut(st, s, k, t).sessions[s];
    assert SessOk(st, s, y);
    forall j | j in z.tasks ensures EntryOk(st, s, z, j) {
      if j in y.tasks && j != k {
        assert EntryOk(st, s, y, j);
      }
    }
    StillPending(st, c, s, z);
  }

  lemma OtherNotWaited(st: State, c: Stack, s: SessId)
    requires Inv(st, c) && s in st.sessions
    ensures !(st.sessions[s].outgoing && st.sessions[s].tcp) ==> NotWaited(st, s)
  {
    hide RefsOk, TasksOk, SessionsOk, LeadersOk, CountsOk;
  }

  /** Entering a task into a session's table turns a reference on the stack into a stored one. */
  lemma TablePutInv(st: State, c: Stack, s: SessId, k: nat, t: TaskId)
    requires Inv(st, c) && s in st.sessions && t in c.held && k !in st.sessions[s].tasks
    requires !st.sessions[s].connecting && t in st.tasks
    requires if st.sessions[s].outgoing then
               st.tasks[t].msgid == k && if st.sessions[s].tcp then Free(st, c, t) && NotWaited(st, s) else s in st.tasks[t].pending
             else
               st.sessions[s].tcp && t == k && st.tasks[t].source == Some(s)
    ensures Inv(TablePut(st, s, k, t), c.(held := c.held - multiset{t}))
  {
    hide Inv, Placed, SessOk, StaysReachable, PlacesOk, Balanced, NotWaited;
    PutBalance(c, st.sessions[s], k, t);
    PutPlaces(st, c, s, k, t);
    OtherNotWaited(st, c, s);
    TablePutOk(st, c, s, k, t);
    SessEdit(st, c, c.(held := c.held - multiset{t}), s, TablePut(st, s, k, t).sessions[s]);
  }

  lemma TakePlaces(st: State, c: Stack, s: SessId, k: nat)
    requires s in st.sessions && k in st.sessions[s].tasks
    ensures PlacesOk(st, c, st.sessions[s], TableTake(st, s, k).sessions[s])
  {
    hide Sum, Listed, Placed;
    TakeBalance(c, st.sessions[s], k);
  }

  lemma TableTakeOk(st: State, c: Stack, s: SessId, k: nat)
    requires Inv(st, c) && s in st.sessions && k in st.sessions[s].tasks
    requires var t := st.sessions[s].tasks[k];
             if st.sessions[s].outgoing then st.sessions[s].tcp || t in c.loose
             else t in c.adrift || (t in st.tasks && st.tasks[t].finished)
    ensures SessOk(st, s, TableTake(st, s, k).sessions[s])
    ensures StaysReachable(st, c, s, TableTake(st, s, k).sessions[s])
  {
    hide RefsOk, LeadersOk, MapsOk, CountsOk, TaskOk;
    var y := st.sessions[s];
    var z := TableTake(st, s, k).sessions[s];
    assert SessOk(st, s, y);
    assert EntryOk(st, s, y, k);
    forall j | j in z.tasks ensures EntryOk(st, s, z, j) {
      assert EntryOk(st, s, y, j);
    }
    if y.tcp {
      TcpNotPending(st, c, s);
    } else {
      forall u | u in st.tasks && s in st.tasks[u].pending ensures u in c.loose {
        assert PendingOk(st, c, u, st.tasks[u]);
        assert PendingOk(st, c, y.tasks[k], st.tasks[y.tasks[k]]);
      }
    }
  }

  /** Deleting a table entry hands its reference to the caller. */
  lemma TableTakeInv(st: State, c: Stack, s: SessId, k: nat)
    requires Inv(st, c) && s in st.sessions && k in st.sessions[s].tasks
    requires var t := st.sessions[s].tasks[k];
             if st.sessions[s].outgoing then st.sessions[s].tcp || t in c.loose
             else t in c.adrift || (t in st.tasks && st.tasks[t].finished)
    ensures Inv(TableTake(st, s, k), c.(held := c.held + multiset{st.sessions[s].tasks[k]}))
  {
    hide Inv, Placed, SessOk, StaysReachable, PlacesOk, Balanced;
    TakeBalance(c, st.sessions[s], k);
    TakePlaces(st, c, s, k);
    TableTakeOk(st, c, s, k);
    var z := TableTake(st, s, k).sessions[s];
    SessEdit(st, c, c.(held := c.held + multiset{st.sessions[s].tasks[k]}), s, z);
  }

  lemma PushBalance(c: Stack, y: Session, t: TaskId)
    requires t in c.held
    ensures Balanced(c, c.(held := c.held - multiset{t}), y, y.(waiting := y.waiting + [t]))
    ensures forall u: TaskId :: Listed(y.(waiting := y.waiting + [t]), u) == Listed(y, u) + Is(t, u)
  {
    hide Sum;
    assert multiset(y.waiting + [t]) == multiset(y.waiting) + multiset{t};
  }

  lemma PopBalance(c: Stack, y: Session)
    requires y.waiting != []
    ensures Balanced(c, c.(held := c.held + multiset{y.waiting[0]}), y, y.(waiting := y.waiting[1..]))
    ensures forall u: TaskId :: Listed(y.(waiting := y.waiting[1..]), u) == Listed(y, u) - Is(y.waiting[0], u)
  {
    hide Sum;
    assert y.waiting == [y.waiting[0]] + y.waiting[1..];
    assert multiset(y.waiting) == multiset{y.waiting[0]} + multiset(y.waiting[1..]);
  }

  lemma PushPlaces(st: State, c: Stack, s: SessId, t: TaskId)
    requires s in st.sessions && Free(st, c, t) && t in c.held
    ensures PlacesOk(st, c, st.sessions[s], QueuePush(st, s, t).sessions[s])
  {
    hide Sum, Listed, Placed, Balanced;
    PushBalance(c, st.sessions[s], t);
  }

  lemma QueueOk(st: State, c: Stack, s: SessId, q: seq<TaskId>)
    requires Inv(st, c) && s in st.sessions && st.sessions[s].outgoing && st.sessions[s].tcp
    ensures SessOk(st, s, st.sessions[s].(waiting := q))
    ensures StaysReachable(st, c, s, st.sessions[s].(waiting := q))
  {
    hide RefsOk, LeadersOk, MapsOk, CountsOk, TasksOk;
    var y := st.sessions[s];
    assert SessOk(st, s, y);
    forall j | j in y.tasks ensures EntryOk(st, s, y.(waiting := q), j) {
      assert EntryOk(st, s, y, j);
    }
    TcpNotPending(st, c, s);
  }

  /** Queueing a task on an upstream session gives it its one place. */
  lemma QueuePushInv(st: State, c: Stack, s: SessId, t: TaskId)
    requires Inv(st, c) && s in st.sessions && st.sessions[s].outgoing && st.sessions[s].tcp
    requires t in c.held && Free(st, c, t)
    ensures Inv(QueuePush(st, s, t), c.(held := c.held - multiset{t}))
  {
    hide Inv, Placed, SessOk, StaysReachable, PlacesOk, Balanced, Free;
    PushBalance(c, st.sessions[s], t);
    PushPlaces(st, c, s, t);
    QueueOk(st, c, s, st.sessions[s].waiting + [t]);
    SessEdit(st, c, c.(held := c.held - multiset{t}), s, QueuePush(st, s, t).sessions[s]);
  }

  lemma PopPlaces(st: State, c: Stack, s: SessId)
    requires s in st.sessions && st.sessions[s].waiting != []
    ensures PlacesOk(st, c, st.sessions[s], QueuePop(st, s).sessions[s])
  {
    hide Sum, Listed, Placed, Balanced;
    PopBalance(c, st.sessions[s]);
  }

  lemma QueuePopInv(st: State, c: Stack, s: SessId)
    requires Inv(st, c) && s in st.sessions && st.sessions[s].outgoing && st.sessions[s].tcp
    requires st.sessions[s].waiting != []
    ensures Inv(QueuePop(st, s), c.(held := c.held + multiset{st.sessions[s].waiting[0]}))
  {
    hide Inv, Placed, SessOk, StaysReachable, PlacesOk, Balanced;
    PopBalance(c, st.sessions[s]);
    PopPlaces(st, c, s);
    QueueOk(st, c, s, st.sessions[s].waiting[1..]);
    SessEdit(st, c, c.(held := c.held + multiset{st.sessions[s].waiting[0]}), s, QueuePop(st, s).sessions[s]);
  }

  /** Taking a task out of the one place it has leaves it free. */
  lemma TakenFree(st: State, c: Stack, s: SessId, z: Session, t: TaskId)
    requires Inv(st, c) && s in st.sessions && st.sessions[s].outgoing && st.sessions[s].tcp && t in st.tasks
    requires SameShape(st.sessions[s], z) && Listed(z, t) == Listed(st.sessions[s], t) - 1
    ensures Free(SetSess(st, s, z), c, t) && Placed(st, t) == 1
  {
    hide RefsOk, SessionsOk, LeadersOk, MapsOk, CountsOk, PendingOk, SourceOk, Placed, Listed;
    At(st, c, t);
    SessSums(st, s, z);
  }

  // ----- opening and closing sessions -----

  function Close(st: State, s: SessId): State
    requires s in st.sessions
  {
    SetSess(st, s, st.sessions[s].(closing := true))
  }

  function SetConnecting(st: State, s: SessId, b: bool): State
    requires s in st.sessions
  {
    SetSess(st, s, st.sessions[s].(connecting := b))
  }

  lemma SameTablesOk(st: State, c: Stack, s: SessId, z: Session)
    requires Inv(st, c) && s in st.sessions
    requires z == st.sessions[s].(closing := z.closing, connecting := z.connecting)
    requires z.connecting ==> z.outgoing && z.tcp && !z.closing && z.tasks == map[]
    ensures SessOk(st, s, z) && StaysReachable(st, c, s, z) && Balanced(c, c, st.sessions[s], z)
    ensures PlacesOk(st, c, st.sessions[s], z)
  {
    hide RefsOk, LeadersOk, MapsOk, CountsOk, TaskOk, SourceOk, Placed;
    assert SessOk(st, s, st.sessions[s]);
    forall j | j in z.tasks ensures EntryOk(st, s, z, j) {
      assert EntryOk(st, s, st.sessions[s], j);
    }
    StillPending(st, c, s, z);
  }

  lemma CloseInv(st: State, c: Stack, s: SessId)
    requires Inv(st, c) && s in st.sessions && !st.sessions[s].connecting
    requires st.sessions[s].closing || (Unregistered(st, s) && NotPending(st, s))
    ensures Inv(Close(st, s), c)
  {
    hide Inv, SessOk, StaysReachable, PlacesOk, Balanced, Unregistered, NotPending;
    SameTablesOk(st, c, s, Close(st, s).sessions[s]);
    SessEdit(st, c, c, s, Close(st, s).sessions[s]);
  }

  lemma SetConnectingInv(st: State, c: Stack, s: SessId, b: bool)
    requires Inv(st, c) && s in st.sessions
    requires b ==> st.sessions[s].outgoing && st.sessions[s].tcp && !st.sessions[s].closing
                   && st.sessions[s].tasks == map[] && st.sessions[s].peer !in st.tcpConnected
    ensures Inv(SetConnecting(st, s, b), c)
  {
    hide SessOk, StaysReachable, PlacesOk, Balanced, RefsOk, TasksOk, LeadersOk, MapsOk, CountsOk;
    assert SessOk(st, s, st.sessions[s]);
    SameTablesOk(st, c, s, SetConnecting(st, s, b).sessions[s]);
    SessEdit(st, c, c, s, SetConnecting(st, s, b).sessions[s]);
  }

  /** A reference that is not the last one can be dropped without freeing the task. */
  lemma UnrefKeeps(st: State, c: Stack, t: TaskId)
    requires Inv(st, c) && t in c.held && t in st.tasks
    ensures st.tasks[t].primary || c.held[t] > 1 || Stored(st, t) > 0 ==>
              t in Unref(st, t).tasks && Unref(st, t).tasks[t] == st.tasks[t].(refs := st.tasks[t].refs - 1)
  {
    hide Stored;
    At(st, c, t);
  }
}
