/** Leaving the client: the end of a task's life. */
module WorkerClients {
  import opened Prelude
  import opened WorkerState
  import opened WorkerMoves
  import opened WorkerLeads
  import opened WorkerFrames

  lemma ClientKey(st: State, c: Stack, s: SessId, k: nat)
    requires Inv(st, c) && s in st.sessions && !st.sessions[s].outgoing && k in st.sessions[s].tasks
    ensures st.sessions[s].tasks[k] == k && k in st.tasks && st.tasks[k].source == Some(s) && st.sessions[s].tcp
  {
    hide RefsOk, TasksOk, LeadersOk, MapsOk, CountsOk;
    assert SessOk(st, s, st.sessions[s]);
    assert EntryOk(st, s, st.sessions[s], k);
  }

  ghost predicate ClientListed(st: State, t: TaskId)
    requires t in st.tasks
  {
    && st.tasks[t].source.Some?
    && st.tasks[t].source.value in st.sessions
    && !st.sessions[st.tasks[t].source.value].outgoing
    && t in st.sessions[st.tasks[t].source.value].tasks
  }

  /** The task is out of its client's table and has no client; its entry's reference is still to be dropped. */
  function Unlisted(st: State, t: TaskId): State
    requires t in st.tasks && st.tasks[t].source.Some? && st.tasks[t].source.value in st.sessions
  {
    Orphan(TableTake(st, st.tasks[t].source.value, t), t)
  }

  function Detached(st: State, t: TaskId): State
    requires t in st.tasks && st.tasks[t].source.Some?
  {
    var s := st.tasks[t].source.value;
    if s in st.sessions && t in st.sessions[s].tasks then Unref(Unlisted(st, t), t) else Orphan(st, t)
  }

  lemma UnlistedInv(st: State, c: Stack, t: TaskId)
    requires Inv(st, c) && t in st.tasks && ClientListed(st, t)
    ensures Inv(Unlisted(st, t), c.(held := c.held + multiset{t}))
  {
    hide Inv;
    var s := st.tasks[t].source.value;
    var b := TableTake(st, s, t);
    var c1 := c.(adrift := c.adrift + {t});
    var c2 := c1.(held := c1.held + multiset{t});
    ClientKey(st, c, s, t);
    CastOff(st, c, t);
    TableTakeInv(st, c1, s, t);
    OrphanInv(b, c2, t);
    if t !in c.adrift {
      Moor(Orphan(b, t), c2, t);
      assert c2.(adrift := c2.adrift - {t}) == c.(held := c.held + multiset{t});
    } else {
      assert c2 == c.(held := c.held + multiset{t});
    }
  }

  lemma UnlistedQuiet(st: State, t: TaskId)
    requires t in st.tasks && ClientListed(st, t)
    ensures Quiet(st, Unlisted(st, t), {})
  {
    hide Quiet;
    var s := st.tasks[t].source.value;
    var b := TableTake(st, s, t);
    QuietClient(st, s, b.sessions[s]);
    QuietTask(b, t, b.tasks[t].(source := None));
    QuietThen(st, b, Unlisted(st, t), {}, {});
  }

  /** What detaching does to the task and to its client session. */
  ghost predicate DetachedOk(st: State, c: Stack, n: State, t: TaskId)
    requires t in st.tasks && st.tasks[t].source.Some?
  {
    var s := st.tasks[t].source.value;
    && (t in n.tasks ==> n.tasks[t] == st.tasks[t].(source := None, refs := n.tasks[t].refs))
    && (t in c.held || st.tasks[t].primary ==> t in n.tasks)
    && s in st.sessions
    && n.sessions == st.sessions[s := st.sessions[s].(tasks := st.sessions[s].tasks - {t})]
    && n.writes == st.writes
  }

  lemma DropListed(st: State, c: Stack, t: TaskId)
    requires Inv(st, c) && t in st.tasks && ClientListed(st, t)
    ensures Inv(Detached(st, t), c) && Quiet(st, Detached(st, t), {})
  {
    hide Inv, Quiet, Unlisted, Unref;
    var d := Unlisted(st, t);
    var c1 := c.(held := c.held + multiset{t});
    UnlistedInv(st, c, t);
    UnlistedQuiet(st, t);
    UnrefInv(d, c1, t);
    QuietUnref(d, c1, t);
    QuietThen(st, d, Unref(d, t), {}, {});
    assert c1.(held := c1.held - multiset{t}) == c;
  }

  lemma DropListedShape(st: State, c: Stack, t: TaskId)
    requires Inv(st, c) && t in st.tasks && ClientListed(st, t)
    ensures DetachedOk(st, c, Detached(st, t), t)
  {
    hide Inv, Stored;
    UnlistedInv(st, c, t);
    UnrefKeeps(Unlisted(st, t), c.(held := c.held + multiset{t}), t);
  }

  lemma DetachedInv(st: State, c: Stack, t: TaskId)
    requires Inv(st, c) && t in st.tasks && st.tasks[t].source.Some?
    ensures Inv(Detached(st, t), c) && Quiet(st, Detached(st, t), {}) && DetachedOk(st, c, Detached(st, t), t)
  {
    hide Inv, Quiet, Holders;
    var s := st.tasks[t].source.value;
    At(st, c, t);
    if t in st.sessions[s].tasks {
      DropListed(st, c, t);
      DropListedShape(st, c, t);
    } else {
      OrphanInv(st, c, t);
      QuietTask(st, t, st.tasks[t].(source := None));
      assert st.sessions[s].tasks - {t} == st.sessions[s].tasks;
    }
  }

  function Retired(st: State, t: TaskId): State
    requires t in st.tasks
  {
    if st.tasks[t].primary then Unref(TakePrimary(st, t), t) else st
  }

  lemma RetiredInv(st: State, c: Stack, t: TaskId)
    requires Inv(st, c) && t in st.tasks && st.tasks[t].finished
    ensures Inv(Retired(st, t), c) && Quiet(st, Retired(st, t), {t})
    ensures t in Retired(st, t).tasks ==> Retired(st, t).tasks[t] == st.tasks[t].(primary := false, refs := Retired(st, t).tasks[t].refs)
    ensures t in c.held ==> t in Retired(st, t).tasks
    ensures Retired(st, t).sessions == st.sessions && Retired(st, t).writes == st.writes
  {
    hide Inv, Quiet, Stored;
    if st.tasks[t].primary {
      var d := TakePrimary(st, t);
      var c1 := c.(held := c.held + multiset{t});
      TakePrimaryInv(st, c, t);
      QuietTask(st, t, st.tasks[t].(primary := false));
      UnrefInv(d, c1, t);
      UnrefKeeps(d, c1, t);
      QuietUnref(d, c1, t);
      QuietThen(st, d, Unref(d, t), {t}, {});
      assert c1.(held := c1.held - multiset{t}) == c;
    } else {
      QuietRefl(st);
      QuietMore(st, st, {}, {t});
    }
  }

  function Completed(st: State, t: TaskId): State
    requires t in st.tasks
  {
    var d := if st.tasks[t].source.Some? then Detached(st, t) else st;
    if t in d.tasks then Retired(d, t) else d
  }

  /** A completed task is known to no client and no request any more. */
  lemma CompletedInv(st: State, c: Stack, t: TaskId)
    requires Inv(st, c) && t in st.tasks && st.tasks[t].finished
    ensures var n := Completed(st, t);
            && Inv(n, c) && Quiet(st, n, {t})
            && (t in n.tasks ==> n.tasks[t] == st.tasks[t].(source := None, primary := false, refs := n.tasks[t].refs))
            && (t in c.held ==> t in n.tasks)
            && n.writes == st.writes
            && n.sessions.Keys == st.sessions.Keys
  {
    hide Inv, Quiet;
    if st.tasks[t].source.Some? {
      var d := Detached(st, t);
      DetachedInv(st, c, t);
      QuietMore(st, d, {}, {t});
      if t in d.tasks {
        RetiredInv(d, c, t);
        QuietThen(st, d, Retired(d, t), {t}, {t});
      }
    } else {
      RetiredInv(st, c, t);
    }
  }

  /** The task's answer is on its way to client `s`, or the task has no client any more. */
  ghost predicate Settled(st: State, t: TaskId) {
    t in st.tasks ==> SourceOk(st, Stack(multiset{}, {}, {}, {}), t, st.tasks[t])
  }

  lemma SettledAnswer(st: State, c: Stack, w: nat, t: TaskId, s: SessId)
    requires Inv(st, c) && t in st.tasks && st.tasks[t].finished && st.tasks[t].source == Some(s)
    ensures Settled(WriteAdd(st, w, t, s), t)
  {
    hide RefsOk, SessionsOk, LeadersOk, MapsOk, CountsOk, TaskOk, PendingOk;
    var n := WriteAdd(st, w, t, s);
    assert SourceOk(st, c, t, st.tasks[t]);
    assert w in n.writes && n.writes[w] == Write(t, s);
  }

  lemma SettledOrphan(st: State, t: TaskId)
    requires t in st.tasks ==> st.tasks[t].source == None
    ensures Settled(st, t)
  {
  }

  /** Client sessions are in no connection map and in no task's list of open sessions. */
  lemma ClientUnregistered(st: State, c: Stack, s: SessId)
    requires Inv(st, c) && s in st.sessions && !st.sessions[s].outgoing
    ensures Unregistered(st, s) && NotPending(st, s) && !st.sessions[s].connecting && st.sessions[s].waiting == []
  {
    hide RefsOk, LeadersOk, CountsOk, TaskOk, SourceOk;
    assert SessOk(st, s, st.sessions[s]);
    forall t | t in st.tasks ensures s !in st.tasks[t].pending {
      assert PendingOk(st, c, t, st.tasks[t]);
    }
  }

  lemma QuietClose(st: State, c: Stack, s: SessId)
    requires Inv(st, c) && s in st.sessions && !st.sessions[s].outgoing && st.sessions[s].tasks == map[] && st.sessions[s].waiting == []
    ensures Inv(Close(st, s), c) && Quiet(st, Close(st, s), {})
  {
    hide Inv, Quiet;
    ClientUnregistered(st, c, s);
    CloseInv(st, c, s);
    QuietClient(st, s, Close(st, s).sessions[s]);
  }

  /** A write request with its own reference, handed to the event loop. */
  function Posted(st: State, w: nat, t: TaskId, s: SessId): State
    requires t in st.tasks
  {
    WriteAdd(Ref(st, t), w, t, s)
  }

  lemma PostedInv(st: State, c: Stack, w: nat, t: TaskId, s: SessId)
    requires Inv(st, c) && t in st.tasks && w !in st.writes && s in st.sessions
    requires !st.sessions[s].outgoing ==> st.tasks[t].finished
    ensures Inv(Posted(st, w, t, s), c) && Quiet(st, Posted(st, w, t, s), {})
    ensures st.tasks[t].finished && st.tasks[t].source == Some(s) ==> Settled(Posted(st, w, t, s), t)
  {
    hide Inv, Quiet, Settled;
    var b := Ref(st, t);
    var c1 := c.(held := c.held + multiset{t});
    RefInv(st, c, t);
    QuietTask(st, t, b.tasks[t]);
    WriteAddInv(b, c1, w, t, s);
    QuietWrites(b, Posted(st, w, t, s));
    QuietThen(st, b, Posted(st, w, t, s), {}, {});
    if st.tasks[t].finished && st.tasks[t].source == Some(s) {
      SettledAnswer(b, c1, w, t, s);
    }
    assert c1.(held := c1.held - multiset{t}) == c;
  }

  /** Message ID `k` taken out of an upstream session's table together with its reference. */
  function Cancelled(st: State, s: SessId, k: nat): State
    requires s in st.sessions
    requires k in st.sessions[s].tasks ==> st.sessions[s].tasks[k] in st.tasks
  {
    if k in st.sessions[s].tasks then Unref(TableTake(st, s, k), st.sessions[s].tasks[k]) else st
  }

  lemma EntryAlive(st: State, c: Stack, s: SessId, k: nat)
    requires Inv(st, c) && s in st.sessions && k in st.sessions[s].tasks
    ensures st.sessions[s].tasks[k] in st.tasks
    ensures st.sessions[s].outgoing ==> k == st.tasks[st.sessions[s].tasks[k]].msgid && k < 0x1_0000
    ensures st.sessions[s].outgoing && st.sessions[s].tcp ==> Placed(st, st.sessions[s].tasks[k]) == 1
  {
    hide RefsOk, LeadersOk, MapsOk, CountsOk, PendingOk, SourceOk;
    assert SessOk(st, s, st.sessions[s]);
    assert EntryOk(st, s, st.sessions[s], k);
    EntryStored(st, s, k);
    assert TaskOk(st, c, st.sessions[s].tasks[k], st.tasks[st.sessions[s].tasks[k]]);
  }

  lemma CancelledShape(st: State, c: Stack, s: SessId, k: nat)
    requires Inv(st, c) && s in st.sessions && st.sessions[s].outgoing && st.sessions[s].tcp && k in st.sessions[s].tasks
    requires st.sessions[s].tasks[k] in st.tasks
    requires Inv(TableTake(st, s, k), c.(held := c.held + multiset{st.sessions[s].tasks[k]}))
    ensures forall t | t in c.held && t in st.tasks ::
              t in Cancelled(st, s, k).tasks && Cancelled(st, s, k).tasks[t] == st.tasks[t].(refs := Cancelled(st, s, k).tasks[t].refs)
  {
    hide Inv, Stored, Placed;
    var u := st.sessions[s].tasks[k];
    var d := c.(held := c.held + multiset{u});
    assert forall t | t in c.held :: d.held[t] >= 1 && (t == u ==> d.held[t] >= 2);
    UnrefKeeps(TableTake(st, s, k), d, u);
    UnrefOthers(TableTake(st, s, k), u);
    hide Unref;
  }

  lemma UnrefOthers(st: State, u: TaskId)
    requires u in st.tasks
    ensures forall t | t in st.tasks && t != u :: t in Unref(st, u).tasks && Unref(st, u).tasks[t] == st.tasks[t]
    ensures Unref(st, u).sessions == st.sessions
  {
  }

  lemma CancelledInv(st: State, c: Stack, s: SessId, k: nat)
    requires Inv(st, c) && s in st.sessions && st.sessions[s].outgoing && st.sessions[s].tcp
    ensures k in st.sessions[s].tasks ==> st.sessions[s].tasks[k] in st.tasks
    ensures Inv(Cancelled(st, s, k), c)
    ensures forall t | t in c.held && t in st.tasks ::
              t in Cancelled(st, s, k).tasks && Cancelled(st, s, k).tasks[t] == st.tasks[t].(refs := Cancelled(st, s, k).tasks[t].refs)
    ensures Cancelled(st, s, k).sessions == st.sessions[s := st.sessions[s].(tasks := st.sessions[s].tasks - {k})]
  {
    hide Inv, Stored, Placed, Unref;
    if k in st.sessions[s].tasks {
      var u := st.sessions[s].tasks[k];
      var c1 := c.(held := c.held + multiset{u});
      EntryAlive(st, c, s, k);
      TableTakeInv(st, c, s, k);
      UnrefInv(TableTake(st, s, k), c1, u);
      CancelledShape(st, c, s, k);
      UnrefOthers(TableTake(st, s, k), u);
      assert TableTake(st, s, k).sessions == st.sessions[s := st.sessions[s].(tasks := st.sessions[s].tasks - {k})];
      assert c1.(held := c1.held - multiset{u}) == c;
    } else {
      assert st.sessions[s].tasks - {k} == st.sessions[s].tasks;
      assert st.sessions[s := st.sessions[s].(tasks := st.sessions[s].tasks - {k})] == st.sessions;
    }
  }

  /** A task that was sent upstream, listed under its message ID with a reference of its own. */
  function Filed(st: State, s: SessId, t: TaskId): State
    requires t in st.tasks && s in st.sessions
  {
    TablePut(Ref(st, t), s, st.tasks[t].msgid, t)
  }

  lemma RefFree(st: State, c: Stack, d: Stack, t: TaskId)
    requires Free(st, c, t) && d.busy == c.busy
    ensures Free(Ref(st, t), d, t)
  {
    hide Placed, Stored;
    TaskSums(st, t, Ref(st, t).tasks[t]);
  }

  lemma FiledInv(st: State, c: Stack, s: SessId, t: TaskId)
    requires Inv(st, c) && Free(st, c, t) && s in st.sessions && st.sessions[s].outgoing && st.sessions[s].tcp
    requires !st.sessions[s].connecting && st.tasks[t].msgid !in st.sessions[s].tasks && NotWaited(st, s)
    ensures Inv(Filed(st, s, t), c)
    ensures FrameBut(st, Filed(st, s, t), c.busy, s)
  {
    hide Inv, FrameBut, Placed;
    var b := Ref(st, t);
    var c1 := c.(held := c.held + multiset{t});
    RefInv(st, c, t);
    RefFree(st, c, c1, t);
    TablePutInv(b, c1, s, b.tasks[t].msgid, t);
    assert c1.(held := c1.held - multiset{t}) == c;
    QuietTask(st, t, b.tasks[t]);
    QuietBut(st, b, {}, c, s);
    ButSess(b, s, Filed(st, s, t).sessions[s], c.busy);
    ButTrans(st, b, Filed(st, s, t), c.busy, s);
  }

  lemma TableKeys(st: State, c: Stack, s: SessId)
    requires Inv(st, c) && s in st.sessions && st.sessions[s].outgoing
    ensures forall k | k in st.sessions[s].tasks :: k < 0x1_0000
  {
    hide Inv, Placed;
    forall k | k in st.sessions[s].tasks ensures k < 0x1_0000 {
      EntryAlive(st, c, s, k);
    }
  }

  /** The task at the head of an upstream session's queue, once popped, is free. */
  lemma HeadFree(st: State, c: Stack, s: SessId)
    requires Inv(st, c) && s in st.sessions && st.sessions[s].outgoing && st.sessions[s].tcp && st.sessions[s].waiting != []
    ensures st.sessions[s].waiting[0] in st.tasks
    ensures Free(QueuePop(st, s), c.(held := c.held + multiset{st.sessions[s].waiting[0]}), st.sessions[s].waiting[0])
    ensures FrameBut(st, QueuePop(st, s), c.busy, s)
  {
    hide Inv, FrameBut, Placed, Listed, Stored;
    var t := st.sessions[s].waiting[0];
    var z := QueuePop(st, s).sessions[s];
    QueuePopInv(st, c, s);
    HeldAlive(QueuePop(st, s), c.(held := c.held + multiset{t}), t);
    PopBalance(c, st.sessions[s]);
    TakenFree(st, c, s, z, t);
    ButSess(st, s, z, c.busy);
  }

  /** The task taken out of an upstream session's table is free. */
  lemma EntryFree(st: State, c: Stack, s: SessId, k: nat)
    requires Inv(st, c) && s in st.sessions && st.sessions[s].outgoing && st.sessions[s].tcp && k in st.sessions[s].tasks
    ensures st.sessions[s].tasks[k] in st.tasks
    ensures Free(TableTake(st, s, k), c.(held := c.held + multiset{st.sessions[s].tasks[k]}), st.sessions[s].tasks[k])
    ensures FrameBut(st, TableTake(st, s, k), c.busy, s)
  {
    hide Inv, FrameBut, Placed, Listed, Stored;
    var t := st.sessions[s].tasks[k];
    var z := TableTake(st, s, k).sessions[s];
    EntryAlive(st, c, s, k);
    TakeBalance(c, st.sessions[s], k);
    TakenFree(st, c, s, z, t);
    ButSess(st, s, z, c.busy);
  }
}
