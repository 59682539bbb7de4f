/** The remaining single updates: writes, leaders and followers, upstream UDP sessions, the two
    connection maps, and creating or freeing tasks and sessions. */
module WorkerLeads {
  import opened Prelude
  import opened Sums
  import opened WorkerState
  import opened WorkerMoves

  // ----- writes -----

  function WriteAdd(st: State, w: nat, t: TaskId, s: SessId): State {
    st.(writes := st.writes[w := Write(t, s)])
  }

  function WriteTake(st: State, w: nat): State {
    st.(writes := st.writes - {w})
  }

  lemma WriteAddSums(st: State, w: nat, t: TaskId, s: SessId)
    requires w !in st.writes
    ensures forall u: TaskId :: Stored(WriteAdd(st, w, t, s), u) == Stored(st, u) + Is(t, u)
    ensures forall u: TaskId :: Placed(WriteAdd(st, w, t, s), u) == Placed(st, u)
  {
    hide Sum;
    SumNew(st.writes, w, Write(t, s), InFlight);
  }

  lemma WriteTakeSums(st: State, w: nat)
    requires w in st.writes
    ensures forall u: TaskId :: Stored(WriteTake(st, w), u) == Stored(st, u) - Is(st.writes[w].task, u)
    ensures forall u: TaskId :: Placed(WriteTake(st, w), u) == Placed(st, u)
  {
    hide Sum;
    SumDel(st.writes, w, InFlight);
  }

  lemma WriteAddTasks(st: State, c: Stack, d: Stack, w: nat, t: TaskId, s: SessId)
    requires TasksOk(st, c) && w !in st.writes && d.busy == c.busy && d.loose == c.loose && d.adrift == c.adrift
    ensures TasksOk(WriteAdd(st, w, t, s), d)
  {
    hide Placed, Stored;
    WriteAddSums(st, w, t, s);
    var n := WriteAdd(st, w, t, s);
    forall u | u in n.tasks ensures TaskOk(n, d, u, n.tasks[u]) && PendingOk(n, d, u, n.tasks[u]) && SourceOk(n, d, u, n.tasks[u]) {
      assert TaskOk(st, c, u, st.tasks[u]) && PendingOk(st, c, u, st.tasks[u]) && SourceOk(st, c, u, st.tasks[u]);
      if st.tasks[u].source.Some? {
        var r := st.tasks[u].source.value;
        if Answering(st, u, r) {
          var v :| v in st.writes && st.writes[v] == Write(u, r);
          assert n.writes[v] == Write(u, r);
        }
      }
    }
  }

  lemma SameTables(st: State, n: State)
    requires n == st.(writes := n.writes) && SessionsOk(st) && MapsOk(st) && CountsOk(st)
    requires forall w | w in n.writes :: WriteOk(st, n.writes[w])
    ensures SessionsOk(n) && MapsOk(n) && CountsOk(n)
  {
    forall w | w in n.writes ensures WriteOk(n, n.writes[w]) {
      assert WriteOk(st, n.writes[w]);
    }
    forall r | r in n.sessions ensures SessOk(n, r, n.sessions[r]) {
      assert SessOk(st, r, st.sessions[r]);
      forall k | k in n.sessions[r].tasks ensures EntryOk(n, r, n.sessions[r], k) {
        assert EntryOk(st, r, st.sessions[r], k);
      }
    }
    assert forall l: TaskId, f: TaskId :: FollowerCount(n, l, f) == FollowerCount(st, l, f);
  }

  lemma WriteAddRefs(st: State, c: Stack, w: nat, t: TaskId, s: SessId)
    requires RefsOk(st, c) && w !in st.writes && t in c.held
    ensures RefsOk(WriteAdd(st, w, t, s), c.(held := c.held - multiset{t}))
  {
    hide Stored;
    WriteAddSums(st, w, t, s);
  }

  /** A write handed to the event loop keeps its task alive. */
  lemma WriteAddInv(st: State, c: Stack, w: nat, t: TaskId, s: SessId)
    requires Inv(st, c) && w !in st.writes && t in c.held && WriteOk(st, Write(t, s))
    ensures Inv(WriteAdd(st, w, t, s), c.(held := c.held - multiset{t}))
  {
    hide RefsOk, TasksOk, MapsOk, CountsOk;
    WriteAddRefs(st, c, w, t, s);
    WriteAddTasks(st, c, c.(held := c.held - multiset{t}), w, t, s);
    SameTables(st, WriteAdd(st, w, t, s));
  }

  lemma WriteTakeTasks(st: State, c: Stack, d: Stack, w: nat)
    requires TasksOk(st, c) && w in st.writes && d.busy == c.busy && d.loose == c.loose && d.adrift == c.adrift
    requires var t := st.writes[w].task;
             t in c.adrift || (t in st.tasks ==> !st.tasks[t].finished)
    ensures TasksOk(WriteTake(st, w), d)
  {
    hide Placed, Stored;
    WriteTakeSums(st, w);
    var n := WriteTake(st, w);
    forall u | u in n.tasks ensures TaskOk(n, d, u, n.tasks[u]) && PendingOk(n, d, u, n.tasks[u]) && SourceOk(n, d, u, n.tasks[u]) {
      assert TaskOk(st, c, u, st.tasks[u]) && PendingOk(st, c, u, st.tasks[u]) && SourceOk(st, c, u, st.tasks[u]);
      if st.tasks[u].source.Some? {
        var r := st.tasks[u].source.value;
        if Answering(st, u, r) && st.writes[w] != Write(u, r) {
          var v :| v in st.writes && st.writes[v] == Write(u, r);
          assert n.writes[v] == Write(u, r);
        }
      }
    }
  }

  lemma WriteTakeRefs(st: State, c: Stack, w: nat)
    requires RefsOk(st, c) && w in st.writes
    ensures RefsOk(WriteTake(st, w), c.(held := c.held + multiset{st.writes[w].task}))
  {
    hide Stored;
    WriteTakeSums(st, w);
  }

  lemma WriteTakeInv(st: State, c: Stack, w: nat)
    requires Inv(st, c) && w in st.writes
    requires var t := st.writes[w].task;
             t in c.adrift || (t in st.tasks ==> !st.tasks[t].finished)
    ensures Inv(WriteTake(st, w), c.(held := c.held + multiset{st.writes[w].task}))
  {
    hide RefsOk, TasksOk, MapsOk, CountsOk;
    WriteTakeRefs(st, c, w);
    WriteTakeTasks(st, c, c.(held := c.held + multiset{st.writes[w].task}), w);
    SameTables(st, WriteTake(st, w));
  }

  // ----- leaders and followers -----

  function MarkLeading(st: State, t: TaskId, b: bool): State
    requires t in st.tasks
  {
    SetTask(st, t, st.tasks[t].(leading := b))
  }

  function Enlist(st: State, t: TaskId, k: Key): State {
    st.(subreqOut := st.subreqOut[k := t])
  }

  function Delist(st: State, k: Key): State {
    st.(subreqOut := st.subreqOut - {k})
  }

  lemma MarkLeadingInv(st: State, c: Stack, t: TaskId, b: bool)
    requires Inv(st, c) && t in c.busy && t in st.tasks && st.tasks[t].waiting == []
    requires b ==> st.tasks[t].key.Some?
    ensures Inv(MarkLeading(st, t, b), c)
  {
    hide Inv, Holders, Placed;
    At(st, c, t);
    TaskEdit(st, c, c, t, st.tasks[t].(leading := b));
  }

  lemma SameSums(st: State, n: State)
    requires n == st.(subreqOut := n.subreqOut, tcpWaiting := n.tcpWaiting, tcpConnected := n.tcpConnected)
    ensures forall u: TaskId :: Placed(n, u) == Placed(st, u) && Stored(n, u) == Stored(st, u)
  {
    hide Sum;
  }

  lemma IndexRefs(st: State, c: Stack, d: Stack, n: State)
    requires RefsOk(st, c) && d.held == c.held
    requires n == st.(subreqOut := n.subreqOut, tcpWaiting := n.tcpWaiting, tcpConnected := n.tcpConnected)
    ensures RefsOk(n, d)
  {
    hide Stored;
    SameSums(st, n);
  }

  lemma IndexRest(st: State, n: State)
    requires SessionsOk(st) && CountsOk(st)
    requires n == st.(subreqOut := n.subreqOut, tcpWaiting := n.tcpWaiting, tcpConnected := n.tcpConnected)
    ensures SessionsOk(n) && CountsOk(n)
  {
    forall w | w in n.writes ensures WriteOk(n, n.writes[w]) {
      assert WriteOk(st, n.writes[w]);
    }
    forall r | r in n.sessions ensures SessOk(n, r, n.sessions[r]) {
      assert SessOk(st, r, st.sessions[r]);
      forall k | k in n.sessions[r].tasks ensures EntryOk(n, r, n.sessions[r], k) {
        assert EntryOk(st, r, st.sessions[r], k);
      }
    }
    assert forall l: TaskId, f: TaskId :: FollowerCount(n, l, f) == FollowerCount(st, l, f);
  }

  lemma IndexTasks(st: State, c: Stack, d: Stack, n: State, t: TaskId)
    requires TasksOk(st, c) && d.loose == c.loose && d.adrift == c.adrift
    requires n == st.(subreqOut := n.subreqOut, tcpWaiting := n.tcpWaiting, tcpConnected := n.tcpConnected)
    requires forall u: TaskId | u != t :: u in c.busy <==> u in d.busy
    requires forall k | k in st.subreqOut && st.subreqOut[k] != t :: k in n.subreqOut && n.subreqOut[k] == st.subreqOut[k]
    requires t in n.tasks ==> TaskOk(st.(subreqOut := n.subreqOut), d, t, n.tasks[t])
    ensures TasksOk(n, d)
  {
    hide Placed, Stored;
    SameSums(st, n);
    SameSums(st, st.(subreqOut := n.subreqOut));
    forall u | u in n.tasks ensures TaskOk(n, d, u, n.tasks[u]) && PendingOk(n, d, u, n.tasks[u]) && SourceOk(n, d, u, n.tasks[u]) {
      assert TaskOk(st, c, u, st.tasks[u]) && PendingOk(st, c, u, st.tasks[u]) && SourceOk(st, c, u, st.tasks[u]);
    }
  }

  lemma IndexTask(st: State, c: Stack, d: Stack, n: State, t: TaskId)
    requires t in st.tasks && TaskOk(st, c, t, st.tasks[t])
    requires n == st.(subreqOut := n.subreqOut) && d.held == c.held && d.loose == c.loose && d.adrift == c.adrift
    requires t in d.busy ==> Placed(st, t) == 0 && !st.tasks[t].finished
    requires st.tasks[t].leading && t !in d.busy ==> st.tasks[t].key.value in n.subreqOut && n.subreqOut[st.tasks[t].key.value] == t
    ensures TaskOk(n, d, t, n.tasks[t])
  {
    hide Placed;
    SameSums(st, n);
  }

  /** A question is announced: from now on the task leads, and is driven by nobody. */
  lemma EnlistInv(st: State, c: Stack, t: TaskId, k: Key)
    requires Inv(st, c) && t in c.busy && t in st.tasks && st.tasks[t].leading && st.tasks[t].key == Some(k)
    requires k !in st.subreqOut
    ensures Inv(Enlist(st, t, k), c.(busy := c.busy - {t}))
  {
    hide RefsOk, MapsOk, CountsOk, SessionsOk, TasksOk, Placed;
    var d := c.(busy := c.busy - {t});
    var n := Enlist(st, t, k);
    IndexRefs(st, c, d, n);
    IndexRest(st, n);
    At(st, c, t);
    IndexTask(st, c, d, n, t);
    IndexTasks(st, c, d, n, t);
    assert MapsOk(n) by { SameMaps(st, n); }
  }

  lemma SameMaps(st: State, n: State)
    requires MapsOk(st) && n.sessions == st.sessions && n.tcpWaiting == st.tcpWaiting && n.tcpConnected == st.tcpConnected
    ensures MapsOk(n)
  {
  }

  /** A leader taken out of the index is driven by the frame that finalises it. */
  lemma DelistInv(st: State, c: Stack, k: Key)
    requires Inv(st, c) && k in st.subreqOut && st.subreqOut[k] in st.tasks
    ensures Inv(Delist(st, k), c.(busy := c.busy + {st.subreqOut[k]}))
  {
    hide RefsOk, MapsOk, CountsOk, SessionsOk, TasksOk, Placed;
    var t := st.subreqOut[k];
    var d := c.(busy := c.busy + {t});
    var n := Delist(st, k);
    IndexRefs(st, c, d, n);
    IndexRest(st, n);
    At(st, c, t);
    IndexTask(st, c, d, n, t);
    IndexTasks(st, c, d, n, t);
    assert MapsOk(n) by { SameMaps(st, n); }
  }

  function FollowerPush(st: State, l: TaskId, t: TaskId): State
    requires l in st.tasks
  {
    SetTask(st, l, st.tasks[l].(waiting := st.tasks[l].waiting + [t])).(enqueued := st.enqueued + multiset{(l, t)})
  }

  function FollowerPop(st: State, l: TaskId): State
    requires l in st.tasks && st.tasks[l].waiting != []
  {
    var q := st.tasks[l].waiting;
    SetTask(st, l, st.tasks[l].(waiting := q[..|q| - 1])).(notified := st.notified + multiset{(l, q[|q| - 1])})
  }

  /** The states before and after a follower list changes from `q` to `r`. */
  ghost predicate Requeued(st: State, n: State, l: TaskId, r: seq<TaskId>) {
    && l in st.tasks
    && n == SetTask(st, l, st.tasks[l].(waiting := r)).(enqueued := n.enqueued, notified := n.notified)
  }

  lemma RequeueSums(st: State, n: State, l: TaskId, r: seq<TaskId>)
    requires Requeued(st, n, l, r)
    ensures forall u: TaskId :: Stored(n, u) == Stored(st, u) - multiset(st.tasks[l].waiting)[u] + multiset(r)[u]
    ensures forall u: TaskId :: Placed(n, u) == Placed(st, u) - multiset(st.tasks[l].waiting)[u] + multiset(r)[u]
    ensures forall u: TaskId :: multiset(st.tasks[l].waiting)[u] <= Placed(st, u)
  {
    hide Sum;
    SumUpdate(st.tasks, l, st.tasks[l].(waiting := r), Followers);
    SumDel(st.tasks, l, Followers);
  }

  lemma RequeueRefs(st: State, c: Stack, d: Stack, n: State, l: TaskId, r: seq<TaskId>)
    requires RefsOk(st, c) && Requeued(st, n, l, r)
    requires forall u: TaskId :: multiset(r)[u] + d.held[u] == multiset(st.tasks[l].waiting)[u] + c.held[u]
    ensures RefsOk(n, d)
  {
    hide Stored, Placed;
    RequeueSums(st, n, l, r);
    assert forall u: TaskId :: Stored(n, u) + d.held[u] == Stored(st, u) + c.held[u];
  }

  lemma RequeueTask(st: State, c: Stack, d: Stack, n: State, l: TaskId, r: seq<TaskId>, u: TaskId)
    requires Requeued(st, n, l, r) && d.busy == c.busy && d.loose == c.loose && d.adrift == c.adrift && u in st.tasks
    requires TaskOk(st, c, u, st.tasks[u]) && PendingOk(st, c, u, st.tasks[u]) && SourceOk(st, c, u, st.tasks[u])
    requires st.tasks[l].leading
    requires multiset(r)[u] <= multiset(st.tasks[l].waiting)[u] || (multiset(r)[u] == multiset(st.tasks[l].waiting)[u] + 1 && Free(st, c, u))
    ensures TaskOk(n, d, u, n.tasks[u]) && PendingOk(n, d, u, n.tasks[u]) && SourceOk(n, d, u, n.tasks[u])
  {
    hide Stored, Placed;
    RequeueSums(st, n, l, r);
  }

  lemma RequeueRest(st: State, c: Stack, d: Stack, n: State, l: TaskId, r: seq<TaskId>)
    requires SessionsOk(st) && LeadersOk(st, c) && MapsOk(st) && Requeued(st, n, l, r) && d.busy == c.busy
    ensures SessionsOk(n) && LeadersOk(n, d) && MapsOk(n)
  {
    forall w | w in n.writes ensures WriteOk(n, n.writes[w]) {
      assert WriteOk(st, n.writes[w]);
    }
    forall s | s in n.sessions ensures SessOk(n, s, n.sessions[s]) {
      assert SessOk(st, s, st.sessions[s]);
      forall k | k in n.sessions[s].tasks ensures EntryOk(n, s, n.sessions[s], k) {
        assert EntryOk(st, s, st.sessions[s], k);
      }
    }
  }

  lemma PushCounts(st: State, l: TaskId, t: TaskId)
    requires CountsOk(st) && l in st.tasks
    ensures CountsOk(FollowerPush(st, l, t))
  {
    var n := FollowerPush(st, l, t);
    assert n.tasks.Keys == st.tasks.Keys;
    var q := st.tasks[l].waiting;
    assert multiset(q + [t]) == multiset(q) + multiset{t};
    forall m: TaskId, f: TaskId ensures n.enqueued[(m, f)] == n.notified[(m, f)] + FollowerCount(n, m, f) {
      assert st.enqueued[(m, f)] == st.notified[(m, f)] + FollowerCount(st, m, f);
    }
  }

  lemma PopCounts(st: State, l: TaskId)
    requires CountsOk(st) && l in st.tasks && st.tasks[l].waiting != []
    ensures CountsOk(FollowerPop(st, l))
  {
    var n := FollowerPop(st, l);
    assert n.tasks.Keys == st.tasks.Keys;
    var q := st.tasks[l].waiting;
    assert q == q[..|q| - 1] + [q[|q| - 1]];
    assert multiset(q) == multiset(q[..|q| - 1]) + multiset{q[|q| - 1]};
    forall m: TaskId, f: TaskId ensures n.enqueued[(m, f)] == n.notified[(m, f)] + FollowerCount(n, m, f) {
      assert st.enqueued[(m, f)] == st.notified[(m, f)] + FollowerCount(st, m, f);
    }
  }

  /** A task queues behind the leader of its question. */
  lemma FollowerPushInv(st: State, c: Stack, l: TaskId, t: TaskId)
    requires Inv(st, c) && l in st.tasks && st.tasks[l].leading && t in c.held && Free(st, c, t)
    ensures Inv(FollowerPush(st, l, t), c.(held := c.held - multiset{t}))
  {
    hide RefsOk, SessionsOk, MapsOk, LeadersOk, CountsOk, TaskOk, PendingOk, SourceOk, Free;
    var d := c.(held := c.held - multiset{t});
    var n := FollowerPush(st, l, t);
    var q := st.tasks[l].waiting;
    assert multiset(q + [t]) == multiset(q) + multiset{t};
    RequeueRefs(st, c, d, n, l, q + [t]);
    RequeueRest(st, c, d, n, l, q + [t]);
    PushCounts(st, l, t);
    forall u | u in n.tasks ensures TaskOk(n, d, u, n.tasks[u]) && PendingOk(n, d, u, n.tasks[u]) && SourceOk(n, d, u, n.tasks[u]) {
      RequeueTask(st, c, d, n, l, q + [t], u);
    }
  }

  /** A leader hands one follower over to be stepped; the follower is then free. */
  lemma FollowerPopInv(st: State, c: Stack, l: TaskId)
    requires Inv(st, c) && l in st.tasks && st.tasks[l].leading && st.tasks[l].waiting != []
    ensures var f := st.tasks[l].waiting[|st.tasks[l].waiting| - 1];
            && Inv(FollowerPop(st, l), c.(held := c.held + multiset{f}))
            && f in st.tasks && Free(FollowerPop(st, l), c, f)
  {
    hide RefsOk, SessionsOk, MapsOk, LeadersOk, CountsOk, TaskOk, PendingOk, SourceOk, Free;
    var q := st.tasks[l].waiting;
    var f := q[|q| - 1];
    var d := c.(held := c.held + multiset{f});
    var n := FollowerPop(st, l);
    assert q == q[..|q| - 1] + [f];
    assert multiset(q) == multiset(q[..|q| - 1]) + multiset{f};
    RequeueRefs(st, c, d, n, l, q[..|q| - 1]);
    RequeueRest(st, c, d, n, l, q[..|q| - 1]);
    PopCounts(st, l);
    forall u | u in n.tasks ensures TaskOk(n, d, u, n.tasks[u]) && PendingOk(n, d, u, n.tasks[u]) && SourceOk(n, d, u, n.tasks[u]) {
      RequeueTask(st, c, d, n, l, q[..|q| - 1], u);
    }
    PoppedFree(st, c, l);
  }

  lemma PoppedFree(st: State, c: Stack, l: TaskId)
    requires Inv(st, c) && l in st.tasks && st.tasks[l].leading && st.tasks[l].waiting != []
    ensures var f := st.tasks[l].waiting[|st.tasks[l].waiting| - 1]; f in st.tasks && Free(FollowerPop(st, l), c, f)
  {
    hide SessionsOk, MapsOk, LeadersOk, CountsOk, TasksOk, Stored, Placed;
    var q := st.tasks[l].waiting;
    var f := q[|q| - 1];
    assert q == q[..|q| - 1] + [f];
    assert multiset(q) == multiset(q[..|q| - 1]) + multiset{f};
    RequeueSums(st, FollowerPop(st, l), l, q[..|q| - 1]);
    FollowerAlive(st, c, l, f);
    At(st, c, f);
    At(st, c, l);
  }

  lemma FollowerAlive(st: State, c: Stack, l: TaskId, f: TaskId)
    requires Inv(st, c) && l in st.tasks && f in st.tasks[l].waiting
    ensures f in st.tasks
  {
    hide SessionsOk, MapsOk, LeadersOk, CountsOk, TasksOk;
    SumTake(st.tasks, l, Followers, f);
    assert f in multiset(st.tasks[l].waiting);
    assert Stored(st, f) > 0;
  }

  // ----- upstream UDP sessions -----

  function PendAdd(st: State, t: TaskId, s: SessId): State
    requires t in st.tasks
  {
    SetTask(st, t, st.tasks[t].(pending := st.tasks[t].pending + [s]))
  }

  function PendDrop(st: State, t: TaskId): State
    requires t in st.tasks && st.tasks[t].pending != []
  {
    SetTask(st, t, st.tasks[t].(pending := st.tasks[t].pending[..|st.tasks[t].pending| - 1]))
  }

  lemma PendAddInv(st: State, c: Stack, t: TaskId, s: SessId)
    requires Inv(st, c) && t in c.loose && t in st.tasks && t !in c.busy && Placed(st, t) == 0 && !st.tasks[t].finished
    requires s in st.sessions && st.sessions[s].outgoing && !st.sessions[s].tcp && !st.sessions[s].closing
    requires st.sessions[s].owner == t && s !in st.tasks[t].pending
    ensures Inv(PendAdd(st, t, s), c)
  {
    hide Inv, Holders, Placed;
    At(st, c, t);
    TaskEdit(st, c, c, t, st.tasks[t].(pending := st.tasks[t].pending + [s]));
  }

  lemma PendDropInv(st: State, c: Stack, t: TaskId)
    requires Inv(st, c) && t in st.tasks && st.tasks[t].pending != []
    requires var s := st.tasks[t].pending[|st.tasks[t].pending| - 1]; s in st.sessions && st.sessions[s].tasks == map[]
    ensures Inv(PendDrop(st, t), c)
  {
    hide Inv, Holders, Placed;
    At(st, c, t);
    TaskEdit(st, c, c, t, PendDrop(st, t).tasks[t]);
  }

  /** An upstream UDP session belongs to one task and lists nothing else. */
  lemma OwnTable(st: State, c: Stack, t: TaskId, s: SessId)
    requires Inv(st, c) && t in st.tasks && s in st.tasks[t].pending
    ensures s in st.sessions && st.sessions[s].outgoing && !st.sessions[s].tcp && !st.sessions[s].closing
    ensures !st.sessions[s].connecting && st.sessions[s].waiting == []
    ensures forall k | k in st.sessions[s].tasks :: k == st.tasks[t].msgid && st.sessions[s].tasks[k] == t
    ensures t !in c.loose ==> st.sessions[s].tasks == map[st.tasks[t].msgid := t]
    ensures forall u | u in st.tasks && u != t :: s !in st.tasks[u].pending
  {
    hide RefsOk, LeadersOk, MapsOk, CountsOk, TaskOk, SourceOk;
    assert PendingOk(st, c, t, st.tasks[t]);
    assert SessOk(st, s, st.sessions[s]);
    forall u | u in st.tasks && u != t ensures s !in st.tasks[u].pending {
      assert PendingOk(st, c, u, st.tasks[u]);
    }
    forall k | k in st.sessions[s].tasks ensures k == st.tasks[t].msgid && st.sessions[s].tasks[k] == t {
      assert EntryOk(st, s, st.sessions[s], k);
    }
  }

  // ----- the connection maps -----

  function AddWaiting(st: State, a: Addr, s: SessId): State { st.(tcpWaiting := st.tcpWaiting[a := s]) }
  function DelWaiting(st: State, a: Addr): State { st.(tcpWaiting := st.tcpWaiting - {a}) }
  function AddConnected(st: State, a: Addr, s: SessId): State { st.(tcpConnected := st.tcpConnected[a := s]) }
  function DelConnected(st: State, a: Addr): State { st.(tcpConnected := st.tcpConnected - {a}) }

  lemma MapsInv(st: State, c: Stack, n: State)
    requires Inv(st, c) && n == st.(tcpWaiting := n.tcpWaiting, tcpConnected := n.tcpConnected) && MapsOk(n)
    ensures Inv(n, c)
  {
    hide RefsOk, MapsOk, CountsOk, SessionsOk, TaskOk, PendingOk, SourceOk;
    IndexRefs(st, c, c, n);
    IndexRest(st, n);
    forall u | u in n.tasks ensures TaskOk(n, c, u, n.tasks[u]) && PendingOk(n, c, u, n.tasks[u]) && SourceOk(n, c, u, n.tasks[u]) {
      MapsTask(st, c, n, u);
    }
  }

  lemma MapsTask(st: State, c: Stack, n: State, u: TaskId)
    requires u in st.tasks && n == st.(tcpWaiting := n.tcpWaiting, tcpConnected := n.tcpConnected)
    requires TaskOk(st, c, u, st.tasks[u]) && PendingOk(st, c, u, st.tasks[u]) && SourceOk(st, c, u, st.tasks[u])
    ensures TaskOk(n, c, u, n.tasks[u]) && PendingOk(n, c, u, n.tasks[u]) && SourceOk(n, c, u, n.tasks[u])
  {
    hide Placed, Stored;
    SameSums(st, n);
  }

  lemma AddWaitingInv(st: State, c: Stack, a: Addr, s: SessId)
    requires Inv(st, c) && a !in st.tcpWaiting && a !in st.tcpConnected && OpenTo(st, s, a) && st.sessions[s].tasks == map[]
    ensures Inv(AddWaiting(st, a, s), c)
  {
    hide RefsOk, CountsOk, SessionsOk, TasksOk, LeadersOk;
    MapsInv(st, c, AddWaiting(st, a, s));
  }

  lemma AddConnectedInv(st: State, c: Stack, a: Addr, s: SessId)
    requires Inv(st, c) && a !in st.tcpWaiting && a !in st.tcpConnected && OpenTo(st, s, a) && !st.sessions[s].connecting
    ensures Inv(AddConnected(st, a, s), c)
  {
    hide RefsOk, CountsOk, SessionsOk, TasksOk, LeadersOk;
    MapsInv(st, c, AddConnected(st, a, s));
  }

  lemma DelWaitingInv(st: State, c: Stack, a: Addr)
    requires Inv(st, c)
    ensures Inv(DelWaiting(st, a), c)
  {
    hide RefsOk, CountsOk, SessionsOk, TasksOk, LeadersOk;
    MapsInv(st, c, DelWaiting(st, a));
  }

  lemma DelConnectedInv(st: State, c: Stack, a: Addr)
    requires Inv(st, c)
    ensures Inv(DelConnected(st, a), c)
  {
    hide RefsOk, CountsOk, SessionsOk, TasksOk, LeadersOk;
    MapsInv(st, c, DelConnected(st, a));
  }

  // ----- creating tasks and sessions, freeing sessions -----

  function Open(st: State, s: SessId, y: Session): State { st.(sessions := st.sessions[s := y]) }
  function Release(st: State, s: SessId): State { st.(sessions := st.sessions - {s}) }

  lemma OpenSums(st: State, s: SessId, y: Session)
    requires s !in st.sessions && y.tasks == map[] && y.waiting == []
    ensures forall u: TaskId :: Stored(Open(st, s, y), u) == Stored(st, u) && Placed(Open(st, s, y), u) == Placed(st, u)
  {
    SumNew(st.sessions, s, y, Listed);
    SumNew(st.sessions, s, y, Upstream);
    assert forall u: TaskId :: Sum(y.tasks, Is, u) == 0;
  }

  lemma ReleaseSums(st: State, s: SessId)
    requires s in st.sessions && st.sessions[s].tasks == map[] && st.sessions[s].waiting == []
    ensures forall u: TaskId :: Stored(Release(st, s), u) == Stored(st, u) && Placed(Release(st, s), u) == Placed(st, u)
  {
    SumDel(st.sessions, s, Listed);
    SumDel(st.sessions, s, Upstream);
    assert forall u: TaskId :: Sum(st.sessions[s].tasks, Is, u) == 0;
  }

  lemma RosterRefs(st: State, c: Stack, n: State)
    requires RefsOk(st, c) && n == st.(sessions := n.sessions)
    requires forall u: TaskId :: Stored(n, u) == Stored(st, u)
    ensures RefsOk(n, c)
  {
    hide Stored;
  }

  lemma RosterTask(st: State, c: Stack, n: State, u: TaskId)
    requires u in st.tasks && n == st.(sessions := n.sessions) && Placed(n, u) == Placed(st, u)
    requires TaskOk(st, c, u, st.tasks[u]) && PendingOk(st, c, u, st.tasks[u]) && SourceOk(st, c, u, st.tasks[u])
    requires forall s | s in st.sessions && (s in st.tasks[u].pending || st.tasks[u].source == Some(s)) :: s in n.sessions && n.sessions[s] == st.sessions[s]
    ensures TaskOk(n, c, u, n.tasks[u]) && PendingOk(n, c, u, n.tasks[u]) && SourceOk(n, c, u, n.tasks[u])
  {
    hide Placed, Stored;
  }

  lemma RosterRest(st: State, c: Stack, n: State, s: SessId)
    requires SessionsOk(st) && LeadersOk(st, c) && MapsOk(st) && CountsOk(st) && n == st.(sessions := n.sessions)
    requires forall r | r in n.sessions && r != s :: r in st.sessions && n.sessions[r] == st.sessions[r]
    requires s in n.sessions ==> n.sessions[s].tasks == map[] && n.sessions[s].waiting == [] && !n.sessions[s].connecting
    requires forall r | r in st.sessions && r != s :: r in n.sessions
    requires s in st.sessions ==> Unregistered(st, s)
    requires forall w | w in st.writes :: st.writes[w].session != s || s !in st.sessions
    ensures SessionsOk(n) && LeadersOk(n, c) && MapsOk(n) && CountsOk(n)
  {
    forall w | w in n.writes ensures WriteOk(n, n.writes[w]) {
      assert WriteOk(st, n.writes[w]);
    }
    forall r | r in n.sessions ensures SessOk(n, r, n.sessions[r]) {
      if r != s {
        assert SessOk(st, r, st.sessions[r]);
        forall k | k in n.sessions[r].tasks ensures EntryOk(n, r, n.sessions[r], k) {
          assert EntryOk(st, r, st.sessions[r], k);
        }
      }
    }
    assert forall l: TaskId, f: TaskId :: FollowerCount(n, l, f) == FollowerCount(st, l, f);
  }

  lemma OpenInv(st: State, c: Stack, s: SessId, y: Session)
    requires Inv(st, c) && s !in st.sessions && y.tasks == map[] && y.waiting == [] && !y.connecting
    ensures Inv(Open(st, s, y), c)
  {
    hide RefsOk, LeadersOk, MapsOk, CountsOk, TaskOk, PendingOk, SourceOk, Placed, Stored;
    var n := Open(st, s, y);
    OpenSums(st, s, y);
    RosterRefs(st, c, n);
    RosterRest(st, c, n, s);
    forall u | u in n.tasks ensures TaskOk(n, c, u, n.tasks[u]) && PendingOk(n, c, u, n.tasks[u]) && SourceOk(n, c, u, n.tasks[u]) {
      RosterTask(st, c, n, u);
    }
  }

  lemma UnusedSession(st: State, c: Stack, s: SessId, u: TaskId)
    requires Inv(st, c) && c.adrift == {} && s in st.sessions && u in st.tasks
    requires st.sessions[s].closing && st.sessions[s].tasks == map[] && (st.sessions[s].outgoing || st.sessions[s].tcp)
    requires forall w | w in st.writes :: st.writes[w].session != s
    ensures s !in st.tasks[u].pending && st.tasks[u].source != Some(s)
  {
    hide RefsOk, LeadersOk, MapsOk, CountsOk, SessionsOk, TaskOk;
    assert PendingOk(st, c, u, st.tasks[u]) && SourceOk(st, c, u, st.tasks[u]);
  }

  lemma ClosingUnregistered(st: State, s: SessId)
    requires MapsOk(st) && s in st.sessions && st.sessions[s].closing
    ensures Unregistered(st, s)
  {
  }

  /** A closed, empty session with no outstanding write can be freed: no task, map or write refers to it. */
  lemma ReleaseInv(st: State, c: Stack, s: SessId)
    requires Inv(st, c) && c.adrift == {} && s in st.sessions
    requires st.sessions[s].closing && st.sessions[s].tasks == map[] && st.sessions[s].waiting == []
    requires st.sessions[s].outgoing || st.sessions[s].tcp
    requires forall w | w in st.writes :: st.writes[w].session != s
    ensures Inv(Release(st, s), c)
  {
    hide RefsOk, LeadersOk, MapsOk, CountsOk, TaskOk, PendingOk, SourceOk, Placed, Stored, SessOk, Unregistered;
    var n := Release(st, s);
    ReleaseSums(st, s);
    RosterRefs(st, c, n);
    ClosingUnregistered(st, s);
    RosterRest(st, c, n, s);
    forall u | u in n.tasks ensures TaskOk(n, c, u, n.tasks[u]) && PendingOk(n, c, u, n.tasks[u]) && SourceOk(n, c, u, n.tasks[u]) {
      UnusedSession(st, c, s, u);
      RosterTask(st, c, n, u);
    }
  }

  /** A new request with its task; the request context holds the primary reference. */
  function Create(st: State, source: Option<SessId>): State {
    st.(tasks := st.tasks[st.next := Task(1, true, source, None, 0, [], [], false, false)],
        next := st.next + 1, concurrent := st.concurrent + 1, rconcurrent := st.rconcurrent + 1)
  }

  lemma CreateSums(st: State, source: Option<SessId>)
    requires st.next !in st.tasks
    ensures forall u: TaskId :: Stored(Create(st, source), u) == Stored(st, u) && Placed(Create(st, source), u) == Placed(st, u)
  {
    hide Sum;
    SumNew(st.tasks, st.next, Create(st, source).tasks[st.next], Followers);
  }

  lemma CreateRefs(st: State, c: Stack, d: Stack, source: Option<SessId>)
    requires RefsOk(st, c) && st.next !in st.tasks && d.held == c.held
    ensures RefsOk(Create(st, source), d)
  {
    hide Stored, Placed;
    CreateSums(st, source);
  }

  lemma CreateTask(st: State, c: Stack, d: Stack, source: Option<SessId>, u: TaskId)
    requires st.next !in st.tasks && u in st.tasks && d == c.(adrift := c.adrift + {st.next})
    requires TaskOk(st, c, u, st.tasks[u]) && PendingOk(st, c, u, st.tasks[u]) && SourceOk(st, c, u, st.tasks[u])
    ensures var n := Create(st, source); TaskOk(n, d, u, n.tasks[u]) && PendingOk(n, d, u, n.tasks[u]) && SourceOk(n, d, u, n.tasks[u])
  {
    hide Stored, Placed;
    CreateSums(st, source);
  }

  lemma CreateNew(st: State, c: Stack, d: Stack, source: Option<SessId>)
    requires Inv(st, c) && st.next !in st.tasks && d == c.(adrift := c.adrift + {st.next}) && st.next !in c.busy
    requires source.Some? ==> source.value in st.sessions && !st.sessions[source.value].outgoing
    ensures var n := Create(st, source); var t := st.next;
            TaskOk(n, d, t, n.tasks[t]) && PendingOk(n, d, t, n.tasks[t]) && SourceOk(n, d, t, n.tasks[t])
    ensures Placed(Create(st, source), st.next) == 0
  {
    hide SessionsOk, LeadersOk, MapsOk, CountsOk, TasksOk;
    CreateSums(st, source);
    assert Stored(st, st.next) == 0;
    PlacedStored(st, st.next);
  }

  lemma PlacedStored(st: State, u: TaskId)
    ensures Placed(st, u) <= Stored(st, u)
  {
    SumMono(st.sessions, u);
  }

  lemma {:induction false} SumMono(m: map<SessId, Session>, u: TaskId)
    ensures Sum(m, Upstream, u) <= Sum(m, Listed, u)
    decreases |m|
  {
    if |m| != 0 {
      var k := Pick(m);
      SumMono(m - {k}, u);
    }
  }

  lemma CreateRest(st: State, c: Stack, d: Stack, source: Option<SessId>)
    requires SessionsOk(st) && LeadersOk(st, c) && MapsOk(st) && d.busy == c.busy && st.next !in st.tasks
    ensures var n := Create(st, source); SessionsOk(n) && LeadersOk(n, d) && MapsOk(n)
  {
    var n := Create(st, source);
    forall w | w in n.writes ensures WriteOk(n, n.writes[w]) {
      assert WriteOk(st, n.writes[w]);
    }
    forall r | r in n.sessions ensures SessOk(n, r, n.sessions[r]) {
      assert SessOk(st, r, st.sessions[r]);
      forall k | k in n.sessions[r].tasks ensures EntryOk(n, r, n.sessions[r], k) {
        assert EntryOk(st, r, st.sessions[r], k);
      }
    }
  }

  lemma CreateLives(st: State, source: Option<SessId>)
    requires LivesOk(st) && st.next !in st.tasks
    ensures LivesOk(Create(st, source))
  {
    var n := Create(st, source);
    assert st.next !in st.freed;
    KeyAdded(st.tasks, st.next, n.tasks[st.next]);
    forall t: TaskId ensures t in n.tasks || t in n.freed <==> t < n.next {
      assert t in st.tasks || t in st.freed <==> t < st.next;
    }
  }

  lemma KeyAdded(m: map<TaskId, Task>, t: TaskId, x: Task)
    requires t !in m
    ensures m[t := x].Keys == m.Keys + {t} && |m[t := x]| == |m| + 1
  {
    assert m[t := x].Keys == m.Keys + {t};
    assert |m[t := x].Keys| == |m.Keys| + 1;
  }

  lemma CreateCounts(st: State, source: Option<SessId>)
    requires CountsOk(st) && st.next !in st.tasks
    ensures CountsOk(Create(st, source))
  {
    hide LivesOk;
    CreateLives(st, source);
    var n := Create(st, source);
    forall l: TaskId, f: TaskId ensures n.enqueued[(l, f)] == n.notified[(l, f)] + FollowerCount(n, l, f) {
      assert st.enqueued[(l, f)] == st.notified[(l, f)] + FollowerCount(st, l, f);
    }
  }

  lemma FreshTask(st: State)
    requires CountsOk(st)
    ensures st.next !in st.tasks
  {
  }

  /** A created task is known to its request only, and free to be stepped. */
  lemma CreateInv(st: State, c: Stack, source: Option<SessId>)
    requires Inv(st, c) && c.busy == {}
    requires source.Some? ==> source.value in st.sessions && !st.sessions[source.value].outgoing
    ensures st.next !in st.tasks
    ensures Inv(Create(st, source), c.(adrift := c.adrift + {st.next}))
    ensures Free(Create(st, source), c, st.next)
  {
    hide RefsOk, SessionsOk, LeadersOk, MapsOk, CountsOk, TaskOk, PendingOk, SourceOk, Placed, Stored;
    var n := Create(st, source);
    var d := c.(adrift := c.adrift + {st.next});
    FreshTask(st);
    CreateRefs(st, c, d, source);
    CreateRest(st, c, d, source);
    CreateCounts(st, source);
    CreateNew(st, c, d, source);
    forall u | u in n.tasks ensures TaskOk(n, d, u, n.tasks[u]) && PendingOk(n, d, u, n.tasks[u]) && SourceOk(n, d, u, n.tasks[u]) {
      if u != st.next {
        CreateTask(st, c, d, source, u);
      }
    }
  }
}
