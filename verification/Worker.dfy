/** The worker: query tasks, sessions and the callbacks that drive them. */
module Workers {
  import opened Prelude
  import opened WorkerState
  import opened WorkerMoves
  import opened WorkerLeads
  import opened WorkerFrames
  import opened WorkerClients
  import opened WorkerUpstream
  import opened WorkerOrder
  import opened WorkerFacts
  import MsgIds

  datatype Outcome = Done | Again | Refused

  /** How far a TLS handshake gets when it is started. */
  datatype TlsStart = UnderWay | Agreed | Broken

  /** What the event loop can report to the worker. */
  datatype Event =
    | Listen(s: SessId, tcp: bool, tls: bool, peer: Addr)
    | Request
    | Query(s: SessId)
    | Reply(s: SessId, id: nat)
    | Written(w: nat, failed: bool)
    | Timeout(s: SessId)
    | Resend(s: SessId)
    | Connected(s: SessId, failed: bool, start: TlsStart)
    | ConnectExpired(s: SessId)
    | Handshake(s: SessId, failed: bool)
    | Tick(s: SessId, late: set<TaskId>, idle: bool)
    | Hangup(s: SessId)
    | Closed(s: SessId)

  class Worker {
    var st: State
    ghost var c: Stack
    /** The tasks that were stepped, in order. */
    ghost var steps: seq<TaskId>
    /** The tasks that a failed write took off an upstream session's table. */
    ghost var lost: set<TaskId>
    /** What was left in the table of a session that was closed, or was put there afterwards. */
    ghost var strays: set<(SessId, TaskId)>

    ghost predicate Valid()
      reads this
    {
      Inv(st, c)
    }

    /** No callback is running. */
    ghost predicate Idle()
      reads this
    {
      c == Stack(multiset{}, {}, {}, {})
    }

    /** What holds between events. */
    ghost predicate Ready()
      reads this
    {
      Valid() && Idle() && Orderly(st, lost, strays)
    }

    // ----- references (worker.c:97-100) -----

    method TaskRef(t: TaskId)
      requires Valid() && t in st.tasks
      modifies `st, `c, `steps
      ensures steps == old(steps)
      ensures Valid() && st == Ref(old(st), t)
      ensures c == old(c).(held := old(c).held + multiset{t})
      ensures Quiet(old(st), st, {})
    {
      hide Inv;
      RefInv(st, c, t);
      QuietTask(st, t, Ref(st, t).tasks[t]);
      st := Ref(st, t);
      c := c.(held := c.held + multiset{t});
    }

    method TaskUnref(t: TaskId)
      requires Valid() && t in c.held
      modifies `st, `c, `steps
      ensures steps == old(steps)
      ensures Valid() && t in old(st).tasks && st == Unref(old(st), t)
      ensures c == old(c).(held := old(c).held - multiset{t})
      ensures Quiet(old(st), st, {})
    {
      hide Inv, Quiet;
      UnrefInv(st, c, t);
      QuietUnref(st, c, t);
      st := Unref(st, t);
      c := c.(held := c.held - multiset{t});
    }

    // ----- leaving the client and completing (worker.c:493-549) -----

    /** Forget the client of a task and take the task out of the client's table. */
    method Detach(t: TaskId)
      requires Valid() && t in st.tasks && st.tasks[t].source.Some?
      modifies `st, `c, `steps
      ensures steps == old(steps)
      ensures Valid() && c == old(c) && st == Detached(old(st), t) && Quiet(old(st), st, {})
    {
      hide Inv, Quiet;
      DetachedInv(st, c, t);
      st := Detached(st, t);
    }

    /** Releases the primary reference of a finished task.  A finished task has no open upstream
        session, no followers and does not lead, so the clean-up of those is never needed here. */
    method Complete(t: TaskId)
      requires Valid() && t in st.tasks && st.tasks[t].finished
      modifies `st, `c, `steps
      ensures steps == old(steps)
      ensures Valid() && c == old(c) && st == Completed(old(st), t) && Quiet(old(st), st, {t})
    {
      hide Inv, Quiet;
      At(st, c, t);
      assert st.tasks[t].pending == [] && st.tasks[t].waiting == [] && !st.tasks[t].leading;
      CompletedInv(st, c, t);
      st := Completed(st, t);
    }

    /** A write ended.  A failed write to an upstream also cancels the wait for its response. */
    method OnSend(t: TaskId, s: Option<SessId>, failed: bool)
      requires Valid() && t in st.tasks
      requires s.Some? ==> t in c.held && s.value in st.sessions
      requires s.Some? && failed && !st.sessions[s.value].outgoing ==> st.tasks[t].finished
      modifies `st, `c, `steps
      ensures steps == old(steps)
      ensures Valid() && c == old(c)
      ensures st.writes == old(st).writes
      ensures t in c.held ==> t in st.tasks
      ensures t in st.tasks && old(st).tasks[t].finished ==> st.tasks[t].finished && st.tasks[t].source == None
      ensures s == None || !failed || !old(st).sessions[s.value].outgoing ==> Quiet(old(st), st, {t}) && st.writes == old(st).writes
      ensures t in st.tasks ==> SameCore(old(st).tasks[t], st.tasks[t])
      ensures !old(st).tasks[t].finished && !failed ==> st == old(st)
      ensures Well(old(st), st, if s.Some? && failed then Struck(old(st), s.value, t) else {}, {})
      ensures s.Some? && failed && old(st).sessions[s.value].outgoing && old(st).sessions[s.value].tcp ==>
        var y := old(st).sessions[s.value];
        s.value in st.sessions && st.sessions[s.value] == y.(tasks := y.tasks - {old(st).tasks[t].msgid})
    {
      hide Inv, Quiet, Well, Placed, Holders;
      ghost var a := st;
      QuietRefl(st);
      QuietMore(st, st, {}, {t});
      WellRefl(st);
      if st.tasks[t].finished {
        CompletedInv(st, c, t);
        At(st, c, t);
        Complete(t);
        QuietKeys(a, st, {t});
        WellOver(a, a, c, st, {}, {}, t);
        assert {} - {t} == {};
      }
      ghost var b := st;
      WellMore(a, b, {}, {}, if s.Some? && failed then Struck(a, s.value, t) else {}, {});
      if s.None? || !st.sessions[s.value].tcp || !failed {
        return;
      }
      if st.sessions[s.value].outgoing {
        CancelWait(s.value, t);
        WellThen(a, b, st, Struck(a, s.value, t), {});
      } else {
        NowhereClient(st, c, t);
        assert t !in st.sessions[s.value].tasks;
      }
    }

    /** Takes a task's message ID out of an upstream session's table. */
    method CancelWait(s: SessId, t: TaskId)
      requires Valid() && t in st.tasks && t in c.held && s in st.sessions && st.sessions[s].outgoing && st.sessions[s].tcp
      modifies `st, `c, `steps
      ensures steps == old(steps)
      ensures Valid() && c == old(c) && t in st.tasks
      ensures st.tasks[t] == old(st).tasks[t].(refs := st.tasks[t].refs)
      ensures st.sessions == old(st).sessions[s := old(st).sessions[s].(tasks := old(st).sessions[s].tasks - {old(st).tasks[t].msgid})]
      ensures st.writes == old(st).writes
      ensures st.tcpWaiting == old(st).tcpWaiting && st.tcpConnected == old(st).tcpConnected
      ensures Placed(st, t) <= old(Placed(st, t))
      ensures Well(old(st), st, Struck(old(st), s, t), {})
      ensures old(st).tasks[t].msgid !in old(st).sessions[s].tasks ==> st == old(st)
    {
      hide Inv, Cancelled, Placed, Well;
      CancelledInv(st, c, s, st.tasks[t].msgid);
      CancelledWell(st, c, s, t);
      CancelPlaced(st, c, s, st.tasks[t].msgid, t);
      CancelMaps(st, s, st.tasks[t].msgid);
      st := Cancelled(st, s, st.tasks[t].msgid);
    }

    /** The callback of a TLS write comes before the write returns. */
    method OnTlsSend(t: TaskId, s: SessId)
      requires Valid() && t in st.tasks && (t in c.held || !st.tasks[t].finished) && s in st.sessions
      modifies `st, `c, `steps
      ensures steps == old(steps)
      ensures Valid() && c == old(c) && t in st.tasks && SameCore(old(st).tasks[t], st.tasks[t])
      ensures Quiet(old(st), st, {t})
      ensures st.tasks[t].finished ==> st.tasks[t].source == None
    {
      hide Inv, Quiet, Stored, Holders, Placed;
      ghost var a, c0 := st, c;
      At(st, c, t);
      TaskRef(t);
      ghost var b := st;
      OnSend(t, Some(s), false);
      ghost var d := st;
      UnrefKeeps(st, c, t);
      TaskUnref(t);
      QuietMore(a, b, {}, {t});
      QuietThen(a, b, d, {t}, {t});
      QuietThen(a, d, st, {t}, {});
      assert c == c0;
    }

    /** Sends the answer of a finished task to its client.  Writes to UDP clients are taken to succeed. */
    method SendClient(t: TaskId, s: SessId) returns (ok: bool)
      requires Valid() && t in st.tasks && t in c.held && st.tasks[t].finished && st.tasks[t].source == Some(s)
      requires s in st.sessions && !st.sessions[s].outgoing
      modifies `st, `c, `steps
      ensures steps == old(steps)
      ensures Valid() && c == old(c) && t in st.tasks && st.tasks[t].finished
      ensures Quiet(old(st), st, {t})
      ensures ok ==> Settled(st, t)
      ensures !ok ==> st == old(st) && st.sessions[s].tcp
    {
      hide Inv, Quiet, Stored, Settled;
      QuietRefl(st);
      QuietMore(st, st, {}, {t});
      ok := *;
      if !st.sessions[s].tcp {
        ok := true;
      }
      if ok {
        if st.sessions[s].tls {
          OnTlsSend(t, s);
          SettledOrphan(st, t);
        } else {
          MsgIds.FreshKey(st.writes);
          var w: nat :| w !in st.writes;
          PostedInv(st, c, w, t, s);
          QuietMore(st, Posted(st, w, t, s), {}, {t});
          st := Posted(st, w, t, s);
        }
      }
    }

    /** Ends a task's resolution: it is finished from here on and answers its client, if any.  When the
        client's connection fails, all tasks are detached from it and it is closed. */
    method Finalize(t: TaskId)
      requires Valid() && t in st.tasks && t !in c.busy
      requires !st.tasks[t].leading
      requires st.tasks[t].pending == []
      modifies `st, `c, `steps
      ensures steps == old(steps)
      ensures Valid() && c == old(c) && Quiet(old(st), st, {t})
      ensures t in st.tasks ==> st.tasks[t].finished
      ensures t in c.held ==> t in st.tasks
      ensures !old(st).tasks[t].finished ==> Settled(st, t)
    {
      hide Inv, Quiet, Stored, Settled, Holders;
      QuietRefl(st);
      QuietMore(st, st, {}, {t});
      if st.tasks[t].finished {
        return;
      }
      ghost var a, c0 := st, c;
      FinalizeOpen(t);
      if t !in c0.adrift {
        MoorSettled(st, c, t);
        c := c.(adrift := c.adrift - {t});
      }
      assert c == c0;
    }

    method FinalizeOpen(t: TaskId)
      requires Valid() && t in st.tasks && t !in c.busy && !st.tasks[t].finished
      requires !st.tasks[t].leading && st.tasks[t].pending == []
      modifies `st, `c, `steps
      ensures steps == old(steps)
      ensures Valid() && c == old(c).(adrift := old(c).adrift + {t}) && Quiet(old(st), st, {t})
      ensures t in st.tasks ==> st.tasks[t].finished
      ensures t in c.held ==> t in st.tasks
      ensures Settled(st, t)
    {
      hide Inv, Quiet, Stored, Settled, Holders, Placed, Well, SameCore, Narrowed;
      ghost var a := st;
      CastOff(st, c, t);
      c := c.(adrift := c.adrift + {t});
      ghost var c1 := c;
      At(st, c, t);
      var source := st.tasks[t].source;
      FinishInv(st, c, t);
      QuietTask(st, t, st.tasks[t].(finished := true));
      st := Finish(st, t);
      ghost var b := st;
      if source.None? {
        OnSend(t, None, true);
        QuietThen(a, b, st, {t}, {t});
        SettledOrphan(st, t);
        return;
      }
      TaskRef(t);
      QuietThen(a, b, st, {t}, {});
      Answer(t, source.value);
      QuietThen(a, Ref(b, t), st, {t}, {t});
      ghost var d := st;
      UnrefKeeps(st, c, t);
      SettledUnref(st, t);
      TaskUnref(t);
      QuietThen(a, d, st, {t}, {});
      assert c == c1;
    }

    /** The part of finalising that talks to the client (worker.c:1167-1187). */
    method Answer(t: TaskId, s: SessId)
      requires Valid() && t in st.tasks && t in c.held && st.tasks[t].finished && st.tasks[t].source == Some(s)
      requires s in st.sessions && !st.sessions[s].outgoing
      modifies `st, `c, `steps
      ensures steps == old(steps)
      ensures Valid() && c == old(c) && Quiet(old(st), st, {t})
      ensures t in st.tasks && st.tasks[t].finished
      ensures Settled(st, t)
    {
      hide Inv, Quiet, Stored, Settled, Placed, Well, SameCore;
      ghost var a := st;
      var ok := SendClient(t, s);
      if !ok {
        OnSend(t, None, true);
        ghost var b := st;
        QuietKeys(a, st, {t});
        Disconnect(s, t);
        QuietThen(a, b, st, {t}, {});
        SettledOrphan(st, t);
      }
    }

    /** Detaches all tasks from a client session and closes it; `t` stays as it is. */
    method Disconnect(s: SessId, ghost t: TaskId)
      requires Valid() && s in st.sessions && !st.sessions[s].outgoing
      requires t in st.tasks && t in c.held && st.tasks[t].source == None
      modifies `st, `c, `steps
      ensures steps == old(steps)
      ensures Valid() && c == old(c) && Quiet(old(st), st, {})
      ensures t in st.tasks && st.tasks[t].source == None && st.tasks[t].finished == old(st).tasks[t].finished
      ensures s in st.sessions && st.sessions[s].closing && st.sessions[s].tasks == map[]
    {
      hide Inv, Quiet, Stored;
      ghost var a := st;
      QuietRefl(st);
      while st.sessions[s].tasks != map[]
        invariant steps == old(steps)
        invariant Valid() && c == old(c) && Quiet(a, st, {})
        invariant t in st.tasks && st.tasks[t].source == None && st.tasks[t].finished == old(st).tasks[t].finished
        invariant s in st.sessions && !st.sessions[s].outgoing
        decreases |st.sessions[s].tasks|
      {
        var u :| u in st.sessions[s].tasks;
        ghost var b := st;
        DetachOne(s, u, t);
        QuietThen(a, b, st, {}, {});
      }
      ghost var d := st;
      ClientUnregistered(st, c, s);
      QuietClose(st, c, s);
      st := Close(st, s);
      QuietThen(a, d, st, {}, {});
    }

    method DetachOne(s: SessId, u: TaskId, ghost t: TaskId)
      requires Valid() && s in st.sessions && !st.sessions[s].outgoing && u in st.sessions[s].tasks
      requires t in st.tasks && t in c.held && st.tasks[t].source == None
      modifies `st, `c, `steps
      ensures steps == old(steps)
      ensures Valid() && c == old(c) && Quiet(old(st), st, {})
      ensures t in st.tasks && st.tasks[t].source == None && st.tasks[t].finished == old(st).tasks[t].finished
      ensures s in st.sessions && !st.sessions[s].outgoing && |st.sessions[s].tasks| < |old(st).sessions[s].tasks|
    {
      hide Inv, Quiet, Stored, Detached;
      ClientKey(st, c, s, u);
      DetachedInv(st, c, u);
      Smaller(st.sessions[s].tasks, u);
      FinishedStays(st, Detached(st, u), c, t);
      DetachOther(st, u, t);
      Detach(u);
    }

    // ----- sending upstream (worker.c:569-675, 795-813; session.c:400-417) -----

    /** Sends a task's query over an upstream connection under a message ID that is free there. */
    method SendUpstream(t: TaskId, s: SessId) returns (ok: bool)
      requires Valid() && Free(st, c, t) && (t in c.held || !st.tasks[t].finished)
      requires s in st.sessions && st.sessions[s].outgoing && st.sessions[s].tcp && !st.sessions[s].connecting && NotWaited(st, s)
      modifies `st, `c, `steps
      ensures steps == old(steps)
      ensures Valid() && c == old(c) && FrameBut(old(st), st, c.busy, s) && Well(old(st), st, {}, {s})
      ensures st.tcpWaiting == old(st).tcpWaiting && st.tcpConnected == old(st).tcpConnected
      ensures t in st.tasks && st.tasks[t].finished == old(st).tasks[t].finished
      ensures s in st.sessions && st.sessions[s].waiting == old(st).sessions[s].waiting && st.sessions[s].closing == old(st).sessions[s].closing
      ensures !ok ==> Free(st, c, t) && st.sessions[s].tasks == old(st).sessions[s].tasks
      ensures ok ==> var k := st.tasks[t].msgid;
                k !in old(st).sessions[s].tasks && st.sessions[s].tasks == old(st).sessions[s].tasks[k := t]
    {
      hide Inv, FrameBut, Placed, Quiet, Holders, Stored, Free, Well, NotWaited;
      ghost var a := st;
      ButRefl(st, c.busy, s);
      WellRefl(st);
      WellMore(st, st, {}, {}, {}, {s});
      TableKeys(st, c, s);
      FreeAt(st, c, t);
      At(st, c, t);
      var id, found := MsgIds.FindFree(st.sessions[s].tasks, st.tasks[t].msgid);
      if !found {
        return false;
      }
      RewriteInv(st, c, t, st.tasks[t].key, id);
      QuietTask(st, t, st.tasks[t].(key := st.tasks[t].key, msgid := id));
      QuietBut(st, Rewrite(st, t, st.tasks[t].key, id), {t}, c, s);
      RewriteFree(st, c, t, st.tasks[t].key, id);
      TaskWell(st, t, st.tasks[t].(key := st.tasks[t].key, msgid := id));
      st := Rewrite(st, t, st.tasks[t].key, id);
      WellMore(a, st, {}, {}, {}, {s});
      ok := *;
      if ok {
        ghost var b := st;
        WriteOut(t, s);
        ButTrans(a, b, st, c.busy, s);
        WellMore(b, st, {}, {}, {}, {s});
        WellThen(a, b, st, {}, {s});
        ghost var d := st;
        SameNotWaited(a, d, s);
        FiledInv(st, c, s, t);
        FiledWell(st, s, t);
        st := Filed(st, s, t);
        ButTrans(a, d, st, c.busy, s);
        WellThen(a, d, st, {}, {s});
      }
    }

    /** The accepted write of a query: an outstanding one, or one whose callback has already come. */
    method WriteOut(t: TaskId, s: SessId)
      requires Valid() && Free(st, c, t) && (t in c.held || !st.tasks[t].finished)
      requires s in st.sessions && st.sessions[s].outgoing
      modifies `st, `c, `steps
      ensures steps == old(steps)
      ensures Valid() && c == old(c) && t in st.tasks && Free(st, c, t) && FrameBut(old(st), st, c.busy, s)
      ensures Well(old(st), st, {}, {})
      ensures st.tcpWaiting == old(st).tcpWaiting && st.tcpConnected == old(st).tcpConnected
      ensures s in st.sessions && st.sessions[s] == old(st).sessions[s]
      ensures st.tasks[t].msgid == old(st).tasks[t].msgid && st.tasks[t].finished == old(st).tasks[t].finished
    {
      hide Inv, FrameBut, Placed, Quiet, Stored, Holders, Free, Well, Engaged;
      ghost var a := st;
      FreeAt(st, c, t);
      if st.sessions[s].tls {
        OnTlsSend(t, s);
      } else {
        MsgIds.FreshKey(st.writes);
        var w: nat :| w !in st.writes;
        PostedInv(st, c, w, t, s);
        QuietMore(st, Posted(st, w, t, s), {}, {t});
        st := Posted(st, w, t, s);
      }
      QuietBut(a, st, {t}, c, s);
      QuietKeys(a, st, {t});
      StillFree(a, st, c, t);
      QuietWell(a, c, st, {t});
      if a.tasks[t].finished {
        OverEngaged(st, t);
        WellTask(a, st, {t}, {}, t);
      } else {
        FreeIdle(a, c, t);
        WellIdle(a, st, {t}, {}, t);
      }
      assert {t} - {t} == {};
    }

    /** Finalises a free task and drops the reference the caller holds. */
    method FinalizeHeld(t: TaskId)
      requires Valid() && t in c.held && Free(st, c, t)
      modifies `st, `c, `steps
      ensures steps == old(steps)
      ensures Valid() && c == old(c).(held := old(c).held - multiset{t}) && Quiet(old(st), st, {t})
      ensures t in st.tasks ==> st.tasks[t].finished
    {
      hide Inv, Quiet, Free, Placed;
      ghost var a := st;
      FreeAt(st, c, t);
      Finalize(t);
      ghost var b := st;
      TaskUnref(t);
      QuietThen(a, b, st, {t}, {});
    }

    method FinalizeHead(s: SessId)
      requires Valid() && s in st.sessions && st.sessions[s].outgoing && st.sessions[s].tcp && st.sessions[s].waiting != []
      modifies `st, `c, `steps
      ensures steps == old(steps)
      ensures Valid() && c == old(c) && FrameBut(old(st), st, c.busy, s) && Well(old(st), st, {}, {s})
      ensures st.tcpWaiting == old(st).tcpWaiting && st.tcpConnected == old(st).tcpConnected
      ensures s in st.sessions && st.sessions[s] == old(st).sessions[s].(waiting := old(st).sessions[s].waiting[1..])
      ensures var t := old(st).sessions[s].waiting[0]; t in st.tasks ==> st.tasks[t].finished
    {
      hide Inv, Quiet, Free, Placed, FrameBut, Stored, Well;
      var t := st.sessions[s].waiting[0];
      ghost var a, c0 := st, c;
      HeadFree(st, c, s);
      QueuePopInv(st, c, s);
      DequeuedWell(st, s);
      st := QueuePop(st, s);
      c := c.(held := c.held + multiset{t});
      ghost var b, c1 := st, c;
      FreeAt(st, c, t);
      FinalizeHeld(t);
      WellOver(a, b, c1, st, {t}, {s}, t);
      assert {t} - {t} == {};
      QuietBut(b, st, {t}, c1, s);
      QuietKeys(b, st, {t});
      ButTrans(a, b, st, c0.busy, s);
      assert c == c0;
    }

    method FinalizeEntry(s: SessId, k: nat)
      requires Valid() && s in st.sessions && st.sessions[s].outgoing && st.sessions[s].tcp && k in st.sessions[s].tasks
      modifies `st, `c, `steps
      ensures steps == old(steps)
      ensures Valid() && c == old(c) && FrameBut(old(st), st, c.busy, s) && Well(old(st), st, {}, {s})
      ensures st.tcpWaiting == old(st).tcpWaiting && st.tcpConnected == old(st).tcpConnected
      ensures s in st.sessions && st.sessions[s] == old(st).sessions[s].(tasks := old(st).sessions[s].tasks - {k})
      ensures var t := old(st).sessions[s].tasks[k]; t in st.tasks ==> st.tasks[t].finished
    {
      hide Inv, Quiet, Free, Placed, FrameBut, Stored, Well;
      var t := st.sessions[s].tasks[k];
      ghost var a, c0 := st, c;
      EntryFree(st, c, s, k);
      TableTakeInv(st, c, s, k);
      TakenWell(st, s, k);
      st := TableTake(st, s, k);
      c := c.(held := c.held + multiset{t});
      ghost var b, c1 := st, c;
      FreeAt(st, c, t);
      FinalizeHeld(t);
      WellOver(a, b, c1, st, {t}, {s}, t);
      assert {t} - {t} == {};
      QuietBut(b, st, {t}, c1, s);
      QuietKeys(b, st, {t});
      ButTrans(a, b, st, c0.busy, s);
      assert c == c0;
    }

    /** Finalises every task waiting to be sent on an upstream session. */
    method FinalizeQueue(s: SessId)
      requires Valid() && s in st.sessions && st.sessions[s].outgoing && st.sessions[s].tcp
      modifies `st, `c, `steps
      ensures steps == old(steps)
      ensures Valid() && c == old(c) && FrameBut(old(st), st, c.busy, s) && Well(old(st), st, {}, {s})
      ensures st.tcpWaiting == old(st).tcpWaiting && st.tcpConnected == old(st).tcpConnected
      ensures s in st.sessions && st.sessions[s] == old(st).sessions[s].(waiting := [])
      ensures forall t | t in old(st).sessions[s].waiting && t in st.tasks :: st.tasks[t].finished
    {
      hide Inv, FrameBut, Well;
      ghost var a, all, n := st, st.sessions[s].waiting, 0;
      ButRefl(st, c.busy, s);
      WellRefl(st);
      WellMore(st, st, {}, {}, {}, {s});
      while st.sessions[s].waiting != []
        invariant steps == old(steps)
        invariant Valid() && c == old(c) && FrameBut(a, st, c.busy, s) && Well(a, st, {}, {s})
        invariant st.tcpWaiting == a.tcpWaiting && st.tcpConnected == a.tcpConnected
        invariant s in st.sessions && st.sessions[s] == a.sessions[s].(waiting := st.sessions[s].waiting)
        invariant 0 <= n <= |all| && st.sessions[s].waiting == all[n..]
        invariant forall i | 0 <= i < n && all[i] in st.tasks :: st.tasks[all[i]].finished
        decreases |st.sessions[s].waiting|
      {
        ghost var b := st;
        FinalizeHead(s);
        ButLasting(b, st, c.busy, s);
        ButTrans(a, b, st, c.busy, s);
        WellThen(a, b, st, {}, {s});
        n := n + 1;
      }
    }

    /** Finalises every task awaiting a response on an upstream session. */
    method FinalizeTable(s: SessId)
      requires Valid() && s in st.sessions && st.sessions[s].outgoing && st.sessions[s].tcp
      modifies `st, `c, `steps
      ensures steps == old(steps)
      ensures Valid() && c == old(c) && FrameBut(old(st), st, c.busy, s) && Well(old(st), st, {}, {s})
      ensures st.tcpWaiting == old(st).tcpWaiting && st.tcpConnected == old(st).tcpConnected
      ensures s in st.sessions && st.sessions[s] == old(st).sessions[s].(tasks := map[])
      ensures forall k | k in old(st).sessions[s].tasks && old(st).sessions[s].tasks[k] in st.tasks ::
        st.tasks[old(st).sessions[s].tasks[k]].finished
    {
      hide Inv, FrameBut, Well, NotWaited;
      ghost var a := st;
      ButRefl(st, c.busy, s);
      WellRefl(st);
      WellMore(st, st, {}, {}, {}, {s});
      while st.sessions[s].tasks != map[]
        invariant steps == old(steps)
        invariant Valid() && c == old(c) && FrameBut(a, st, c.busy, s) && Well(a, st, {}, {s})
        invariant st.tcpWaiting == a.tcpWaiting && st.tcpConnected == a.tcpConnected
        invariant s in st.sessions && st.sessions[s] == a.sessions[s].(tasks := st.sessions[s].tasks)
        invariant forall k | k in st.sessions[s].tasks :: k in a.sessions[s].tasks && st.sessions[s].tasks[k] == a.sessions[s].tasks[k]
        invariant forall k | k in a.sessions[s].tasks && k !in st.sessions[s].tasks && a.sessions[s].tasks[k] in st.tasks ::
          st.tasks[a.sessions[s].tasks[k]].finished
        decreases |st.sessions[s].tasks|
      {
        ghost var b := st;
        var k :| k in st.sessions[s].tasks;
        Smaller(st.sessions[s].tasks, k);
        FinalizeEntry(s, k);
        ButLasting(b, st, c.busy, s);
        ButTrans(a, b, st, c.busy, s);
        WellThen(a, b, st, {}, {s});
      }
    }

    /** Forgets an upstream connection that was emptied, and closes it. */
    method DropConnection(s: SessId)
      requires Valid() && s in st.sessions && st.sessions[s].outgoing && st.sessions[s].tcp && !st.sessions[s].connecting
      requires NotWaited(st, s)
      modifies `st, `c, `steps
      ensures steps == old(steps)
      ensures Valid() && c == old(c) && FrameBut(old(st), st, c.busy, s) && Well(old(st), st, {}, {s})
      ensures Unregistered(st, s) && s in st.sessions && st.sessions[s] == old(st).sessions[s].(closing := true)
    {
      hide Inv, FrameBut, Well;
      ghost var a := st;
      var peer := st.sessions[s].peer;
      DelConnectedInv(st, c, peer);
      DropUnregisters(st, c, s);
      ButMaps(st, DelConnected(st, peer), c.busy, s);
      st := DelConnected(st, peer);
      ghost var b := st;
      MapsWell(a, b);
      TcpNotPending(st, c, s);
      CloseInv(st, c, s);
      ButSess(st, s, Close(st, s).sessions[s], c.busy);
      SameUpstream(st.sessions[s], Close(st, s).sessions[s]);
      SessWell(st, s, Close(st, s).sessions[s], {});
      st := Close(st, s);
      WellMore(a, b, {}, {}, {}, {s});
      WellThen(a, b, st, {}, {s});
      ButTrans(a, b, st, c.busy, s);
      SameUnregistered(b, st, s);
    }

    /** Sends every queued task; the first failure gives up the connection with everything on it. */
    method SendWaiting(s: SessId) returns (ok: bool)
      requires Valid() && s in st.sessions && st.sessions[s].outgoing && st.sessions[s].tcp && !st.sessions[s].connecting
      requires NotWaited(st, s)
      modifies `st, `c, `steps
      ensures steps == old(steps)
      ensures Valid() && c == old(c) && FrameBut(old(st), st, c.busy, s) && s in st.sessions && st.sessions[s].waiting == []
      ensures Well(old(st), st, {}, {s})
      ensures ok ==>
                && st.tcpWaiting == old(st).tcpWaiting && st.tcpConnected == old(st).tcpConnected
                && st.sessions[s].closing == old(st).sessions[s].closing
                && forall k | k in old(st).sessions[s].tasks :: k in st.sessions[s].tasks && st.sessions[s].tasks[k] == old(st).sessions[s].tasks[k]
      ensures !ok ==> st.sessions[s].closing && st.sessions[s].tasks == map[] && Unregistered(st, s)
      ensures old(st).sessions[s].waiting == [] ==> ok && st == old(st)
    {
      hide Inv, FrameBut, Well, NotWaited;
      ghost var a := st;
      ButRefl(st, c.busy, s);
      WellRefl(st);
      WellMore(st, st, {}, {}, {}, {s});
      while st.sessions[s].waiting != []
        invariant steps == old(steps)
        invariant a.sessions[s].waiting == [] ==> st == a
        invariant Valid() && c == old(c) && FrameBut(a, st, c.busy, s) && Well(a, st, {}, {s})
        invariant st.tcpWaiting == a.tcpWaiting && st.tcpConnected == a.tcpConnected
        invariant s in st.sessions && st.sessions[s] == a.sessions[s].(waiting := st.sessions[s].waiting, tasks := st.sessions[s].tasks)
        invariant forall k | k in a.sessions[s].tasks :: k in st.sessions[s].tasks && st.sessions[s].tasks[k] == a.sessions[s].tasks[k]
        decreases |st.sessions[s].waiting|
      {
        ghost var b := st;
        SameNotWaited(a, b, s);
        ok := SendHead(s);
        ButTrans(a, b, st, c.busy, s);
        WellThen(a, b, st, {}, {s});
        if !ok {
          SameNotWaited(a, st, s);
          GiveUpConnection(a, s);
          return;
        }
      }
      ok := true;
    }

    /** Finalises everything on a connection and drops it. */
    method GiveUpConnection(ghost a: State, s: SessId)
      requires Valid() && s in st.sessions && st.sessions[s].outgoing && st.sessions[s].tcp && !st.sessions[s].connecting
      requires NotWaited(st, s) && FrameBut(a, st, c.busy, s) && Well(a, st, {}, {s})
      modifies `st, `c, `steps
      ensures steps == old(steps)
      ensures Valid() && c == old(c) && FrameBut(a, st, c.busy, s) && Well(a, st, {}, {s})
      ensures s in st.sessions && st.sessions[s].waiting == []
      ensures st.sessions[s].closing && st.sessions[s].tasks == map[] && Unregistered(st, s)
    {
      hide Inv, FrameBut, Well, NotWaited, Unregistered;
      ghost var d := st;
      FinalizeQueue(s);
      ghost var e := st;
      ButTrans(a, d, e, c.busy, s);
      WellThen(a, d, e, {}, {s});
      FinalizeTable(s);
      ghost var f := st;
      ButTrans(a, e, f, c.busy, s);
      WellThen(a, e, f, {}, {s});
      SameNotWaited(d, f, s);
      DropConnection(s);
      ButTrans(a, f, st, c.busy, s);
      WellThen(a, f, st, {}, {s});
    }

    /** Sends the first queued task, or finalises it when it cannot be sent.  The task is popped first:
        the queue's reference is on the stack while the task is being sent. */
    method SendHead(s: SessId) returns (ok: bool)
      requires Valid() && s in st.sessions && st.sessions[s].outgoing && st.sessions[s].tcp && !st.sessions[s].connecting
      requires st.sessions[s].waiting != [] && NotWaited(st, s)
      modifies `st, `c, `steps
      ensures steps == old(steps)
      ensures Valid() && c == old(c) && FrameBut(old(st), st, c.busy, s) && Well(old(st), st, {}, {s})
      ensures st.tcpWaiting == old(st).tcpWaiting && st.tcpConnected == old(st).tcpConnected
      ensures s in st.sessions && st.sessions[s] == old(st).sessions[s].(waiting := old(st).sessions[s].waiting[1..], tasks := st.sessions[s].tasks)
      ensures var t := old(st).sessions[s].waiting[0];
        if ok then
          exists k: nat :: k !in old(st).sessions[s].tasks && st.sessions[s].tasks == old(st).sessions[s].tasks[k := t]
        else
          st.sessions[s].tasks == old(st).sessions[s].tasks && (t in st.tasks ==> st.tasks[t].finished)
    {
      hide Inv, Quiet, Free, Placed, FrameBut, Stored, Well, NotWaited, Engaged;
      var t := st.sessions[s].waiting[0];
      ghost var a, c0 := st, c;
      HeadFree(st, c, s);
      QueuePopInv(st, c, s);
      DequeuedWell(st, s);
      st := QueuePop(st, s);
      c := c.(held := c.held + multiset{t});
      FreeAt(st, c, t);
      ghost var b := st;
      SameNotWaited(a, b, s);
      ok := SendUpstream(t, s);
      ButTrans(a, b, st, c0.busy, s);
      WellBoth(a, b, st, {t}, {s}, {}, {s});
      ghost var d, c1 := st, c;
      assert {t} + {} == {t} && {s} + {s} == {s};
      ShapeKept(b, d, c0.busy, s);
      ghost var k := st.tasks[t].msgid;
      if ok {
        TaskUnref(t);
        QuietBut(d, st, {}, c1, s);
        WellQuiet(a, d, c1, st, {t}, {s}, {});
        QuietKeys(d, st, {});
        EntryEngaged(st, s, k);
        WellTask(a, st, {t} + {}, {s}, t);
      } else {
        FinalizeHeld(t);
        FreeAt(d, c1, t);
        QuietBut(d, st, {t}, c1, s);
        WellOver(a, d, c1, st, {t}, {s}, t);
        QuietKeys(d, st, {t});
      }
      ButTrans(a, d, st, c0.busy, s);
      assert c == c0;
      assert {t} + {} - {t} == {} && {t} - {t} == {};
      assert ok ==> k !in a.sessions[s].tasks && st.sessions[s].tasks == a.sessions[s].tasks[k := t];
    }

    // ----- open UDP sessions (worker.c:191-197, 1016-1054) -----

    /** Takes a task out of its open UDP sessions and closes them. */
    method KillPending(t: TaskId)
      requires Valid() && t in st.tasks && t !in c.busy
      modifies `st, `c, `steps
      ensures steps == old(steps)
      ensures Valid() && c == old(c).(loose := old(c).loose - {t})
      ensures Killing(old(st), st, t) && st.tasks[t].pending == []
      ensures forall s | s in old(st).tasks[t].pending ::
        s in st.sessions && st.sessions[s].closing && st.sessions[s].tasks == map[]
    {
      hide Inv, Killing, Killed;
      ghost var a, c0, all, n := st, c, st.tasks[t].pending, |st.tasks[t].pending|;
      KillingRefl(st, t);
      Loosen(st, c, t);
      c := c.(loose := c.loose + {t});
      while st.tasks[t].pending != []
        invariant steps == old(steps)
        invariant t in st.tasks && Valid() && c == c0.(loose := c0.loose + {t}) && Killing(a, st, t)
        invariant 0 <= n <= |all| && st.tasks[t].pending == all[..n]
        invariant forall i | n <= i < |all| ::
          all[i] in st.sessions && st.sessions[all[i]].closing && st.sessions[all[i]].tasks == map[]
        decreases |st.tasks[t].pending|
      {
        ghost var b := st;
        KilledInv(st, c, t);
        KilledShut(st, c, t);
        KillingAlive(st, Killed(st, t), t);
        st := Killed(st, t);
        KillingThen(a, b, st, t);
        n := n - 1;
      }
      Tighten(st, c, t);
      c := c.(loose := c.loose - {t});
      assert c == c0.(loose := c0.loose - {t});
    }

    /** Opens one more UDP session for a task's query, unless the limit is reached or something fails. */
    method Retransmit(t: TaskId) returns (ok: bool)
      requires Valid() && t in st.tasks && t !in c.busy && t !in c.loose && Placed(st, t) == 0 && !st.tasks[t].finished
      modifies `st, `c, `steps
      ensures steps == old(steps)
      ensures Valid() && c == old(c) && Frame(old(st), st, c.busy) && Well(old(st), st, {}, {}) && t in st.tasks
      ensures st.tasks[t] == old(st).tasks[t].(pending := st.tasks[t].pending, refs := st.tasks[t].refs)
      ensures Placed(st, t) == 0 && st.subreqOut == old(st).subreqOut
      ensures !ok ==> st == old(st) || ByMisfire(old(st), st, t)
      ensures ok ==> |old(st).tasks[t].pending| < 4 && ByLaunch(old(st), st, t)
    {
      hide Inv, Frame, Placed, Stored, Launched, ByLaunch, ByMisfire, Misfired, Well;
      FrameRefl(st, c.busy);
      WellRefl(st);
      ok := *;
      var spawned: bool := *;
      if |st.tasks[t].pending| >= 4 || !spawned {
        return false;
      }
      MsgIds.FreshKey(st.sessions);
      var s: nat :| s !in st.sessions;
      var peer: Addr := *;
      if ok {
        MsgIds.FreshKey(st.writes);
        var w: nat :| w !in st.writes;
        LaunchedInv(st, c, t, s, w, peer);
        LaunchedShape(st, c, t, s, w, peer);
        LaunchedPlaced(st, t, s, w, peer);
        LaunchedFrame(st, c, t, s, w, peer);
        LaunchedWell(st, t, s, w, peer);
        Launching(st, t, s, w, peer);
        st := Launched(st, t, s, w, peer);
      } else {
        MisfiredInv(st, c, t, s, peer);
        MisfiredWell(st, t, s, peer);
        st := Misfired(st, t, s, peer);
      }
    }

    // ----- merging identical questions (worker.c:1074-1146) -----

    /** Queues a task behind the leader of its question, if there is one. */
    method SubreqEnqueue(t: TaskId) returns (queued: bool)
      requires Valid() && Free(st, c, t)
      modifies `st, `c, `steps
      ensures steps == old(steps)
      ensures Valid() && c == old(c) && Frame(old(st), st, c.busy) && Well(old(st), st, {}, {})
      ensures var k := old(st).tasks[t].key;
        && (queued <==> k.Some? && k.value in old(st).subreqOut)
        && st == if queued then FollowerPush(Ref(old(st), t), old(st).subreqOut[k.value], t) else old(st)
    {
      hide Inv, Frame, Placed, Stored, Free, Well;
      FrameRefl(st, c.busy);
      WellRefl(st);
      FreeAt(st, c, t);
      if st.tasks[t].key.None? || st.tasks[t].key.value !in st.subreqOut {
        return false;
      }
      var l := st.subreqOut[st.tasks[t].key.value];
      LeaderAt(st, c, st.tasks[t].key.value);
      ghost var a, c0 := st, c;
      RefFree(st, c, c.(held := c.held + multiset{t}), t);
      TaskRef(t);
      FollowerPushInv(st, c, l, t);
      FollowFrame(a, c0, l, t);
      FollowWell(a, l, t);
      st := FollowerPush(st, l, t);
      c := c.(held := c.held - multiset{t});
      assert c == c0;
      queued := true;
    }

    /** Announces a task as the leader of its question; nobody else leads it. */
    method SubreqLead(t: TaskId)
      requires Valid() && t in st.tasks && t !in c.busy && Placed(st, t) == 0 && !st.tasks[t].finished && !st.tasks[t].leading
      requires st.tasks[t].key.Some? ==> st.tasks[t].key.value !in st.subreqOut
      modifies `st, `c, `steps
      ensures steps == old(steps)
      ensures Valid() && c == old(c) && Frame(old(st), st, c.busy) && Well(old(st), st, {}, {})
      ensures t in st.tasks && !st.tasks[t].finished
      ensures var k := old(st).tasks[t].key;
        st == if k.Some? then Enlist(MarkLeading(old(st), t, true), t, k.value) else old(st)
    {
      hide Inv, Frame, Placed, Stored, Well;
      FrameRefl(st, c.busy);
      WellRefl(st);
      if st.tasks[t].key.None? {
        return;
      }
      var k := st.tasks[t].key.value;
      ghost var a, c0 := st, c;
      At(st, c, t);
      Drive(st, c, t);
      c := c.(busy := c.busy + {t});
      MarkLeadingInv(st, c, t, true);
      st := MarkLeading(st, t, true);
      EnlistInv(st, c, t, k);
      st := Enlist(st, t, k);
      c := c.(busy := c.busy - {t});
      LeadFrame(a, c0, t, k);
      LeadWell(a, t, k);
      assert c == c0;
    }

    /** Closes a task's open sessions.  If it leads, it leaves the index and every follower is stepped,
        the last enqueued first. */
    method SubreqFinalize(t: TaskId, fuel: nat)
      requires Valid() && t in st.tasks && t !in c.busy && c.loose <= {t}
      requires st.tasks[t].finished ==> c.loose == {}
      modifies `st, `c, `steps
      ensures old(steps) <= steps
      ensures Valid() && c == old(c).(loose := {}) && Frame(old(st), st, c.busy) && Well(old(st), st, {t}, {})
      ensures t in st.tasks && st.tasks[t].finished == old(st).tasks[t].finished
      ensures !st.tasks[t].finished ==> !st.tasks[t].leading && st.tasks[t].pending == []
      ensures old(Placed(st, t)) == 0 && !st.tasks[t].finished ==> Placed(st, t) == 0
      ensures !st.tasks[t].finished && old(st).tasks[t].leading ==>
        Stepped(old(steps), steps, multiset(old(st).tasks[t].waiting))
      decreases fuel, if st.tasks[t].leading then 1 else 0, 3
    {
      hide Inv, Frame, Placed, Stored, Killing, Holders, Stepped, Well;
      ghost var a, c0 := st, c;
      FrameRefl(st, c.busy);
      WellRefl(st);
      WellMore(st, st, {}, {}, {t}, {});
      if st.tasks[t].finished {
        return;
      }
      KillPending(t);
      assert c == c0.(loose := {});
      KilledWell(a, st, t);
      KillingFrame(a, st, t, c.busy);
      KillingTask(a, st, t);
      if !st.tasks[t].leading {
        return;
      }
      At(st, c, t);
      var k := st.tasks[t].key.value;
      assert k in st.subreqOut && st.subreqOut[k] == t;
      ghost var b := st;
      DelistInv(st, c, k);
      DelistFrame(st, k, c.busy);
      st := Delist(st, k);
      FrameTrans(a, b, st, c.busy);
      MapsWell(b, st);
      WellMore(b, st, {}, {}, {t}, {});
      WellThen(a, b, st, {t}, {});
      c := c.(busy := c.busy + {t});
      NotifyFollowers(a, c0.(loose := {}), t, fuel);
      At(st, c, t);
      MarkLeadingInv(st, c, t, false);
      ghost var d := st;
      st := MarkLeading(st, t, false);
      UnleadFrame(a, d, c0.busy, t);
      TaskWell(d, t, st.tasks[t]);
      WellThen(a, d, st, {t}, {});
      Undrive(st, c, t);
      c := c.(busy := c.busy - {t});
      At(st, c, t);
      PlacedUnlead(d, t);
      assert c == c0.(loose := {});
    }

    method NotifyFollowers(ghost a: State, ghost c0: Stack, t: TaskId, fuel: nat)
      requires Valid() && t in st.tasks && st.tasks[t].leading && !st.tasks[t].finished && st.tasks[t].pending == []
      requires c == c0.(busy := c0.busy + {t}) && t !in c0.busy && c.loose == {}
      requires Frame(a, st, c0.busy) && Well(a, st, {t}, {})
      modifies `st, `c, `steps
      ensures old(steps) <= steps
      ensures Valid() && c == old(c) && Frame(a, st, c0.busy) && Well(a, st, {t}, {})
      ensures t in st.tasks && !st.tasks[t].finished && st.tasks[t].waiting == [] && st.tasks[t].pending == []
      ensures Stepped(old(steps), steps, multiset(old(st).tasks[t].waiting))
      decreases fuel, 1, 2
    {
      hide Inv, Frame, Stepped, Well;
      ghost var all, n := st.tasks[t].waiting, |st.tasks[t].waiting|;
      SteppedNone(steps);
      assert all[n..] == [];
      while st.tasks[t].waiting != []
        invariant t in st.tasks && Valid() && c == old(c) && Frame(a, st, c0.busy) && Well(a, st, {t}, {})
        invariant st.tasks[t].leading && !st.tasks[t].finished && st.tasks[t].pending == []
        invariant 0 <= n <= |all| && st.tasks[t].waiting == all[..n]
        invariant old(steps) <= steps && Stepped(old(steps), steps, multiset(all[n..]))
        decreases |st.tasks[t].waiting|
      {
        ghost var log := steps;
        NotifyLast(a, c0, t, fuel);
        SteppedThen(old(steps), log, steps, multiset(all[n..]), multiset{all[n - 1]});
        assert all[n - 1..] == [all[n - 1]] + all[n..];
        assert multiset(all[n - 1..]) == multiset(all[n..]) + multiset{all[n - 1]};
        n := n - 1;
      }
      assert all[0..] == all;
    }

    /** Takes the last follower off the list and steps it. */
    method NotifyLast(ghost a: State, ghost c0: Stack, t: TaskId, fuel: nat)
      requires Valid() && t in st.tasks && st.tasks[t].leading && !st.tasks[t].finished && st.tasks[t].pending == []
      requires c == c0.(busy := c0.busy + {t}) && t !in c0.busy && c.loose == {}
      requires Frame(a, st, c0.busy) && Well(a, st, {t}, {}) && st.tasks[t].waiting != []
      modifies `st, `c, `steps
      ensures old(steps) <= steps
      ensures Valid() && c == old(c) && Frame(a, st, c0.busy) && Well(a, st, {t}, {})
      ensures t in st.tasks && st.tasks[t].leading && !st.tasks[t].finished && st.tasks[t].pending == []
      ensures var q := old(st).tasks[t].waiting; var n := |q| - 1;
        st.tasks[t].waiting == q[..n] && Stepped(old(steps), steps, multiset{q[n]})
      decreases fuel, 1, 1
    {
      hide Inv, Frame, Placed, Stored, Free, Stepped, Well, Engaged;
      ghost var b, c1 := st, c;
      var f := st.tasks[t].waiting[|st.tasks[t].waiting| - 1];
      FollowerPopInv(st, c, t);
      PopFrame(st, t, c0.busy);
      PopWell(st, t);
      st := FollowerPop(st, t);
      FrameTrans(a, b, st, c0.busy);
      WellBoth(a, b, st, {t}, {}, {f}, {});
      ghost var d := st;
      c := c.(held := c.held + multiset{f});
      FreeAt(st, c1, f);
      Step(f, fuel);
      FollowerStepped(a, d, st, t, f);
      SteppedOne(old(steps), steps, f);
      TaskDriven(d, st, c1.busy, t);
      FrameLess(d, st, c1.busy, c0.busy);
      FrameTrans(a, d, st, c0.busy);
      ghost var e, c2 := st, c;
      TaskUnref(f);
      WellQuiet(a, e, c2, st, {t}, {}, {});
      assert {t} + {} == {t};
      QuietFrame(e, st, {}, c2);
      TaskDriven(e, st, c1.busy, t);
      FrameLess(e, st, c1.busy, c0.busy);
      FrameTrans(a, e, st, c0.busy);
      assert c == c1;
    }

    // ----- steps (worker.c:1194-1536) -----

    /** One step of the resolution of a task nobody else is going to step.  What the resolver decides, and
        every outcome of the network, is arbitrary; `fuel` bounds how deep the nested steps may go. */
    method Step(t: TaskId, fuel: nat)
      requires Valid() && t in st.tasks && t !in c.busy && c.loose <= {t}
      requires if st.tasks[t].finished then c.loose == {} else Placed(st, t) == 0
      modifies `st, `c, `steps
      ensures old(steps) + [t] <= steps
      ensures Valid() && c == old(c).(loose := {}) && Frame(old(st), st, c.busy)
      ensures Engaged(st, t) && Well(old(st), st, {}, {})
      decreases fuel, if st.tasks[t].leading then 1 else 0, 5
    {
      hide Inv, Frame, Placed, Stored, Quiet, Holders, Well, Engaged;
      ghost var a := st;
      FrameRefl(st, c.busy);
      WellRefl(st);
      steps := steps + [t];
      if st.tasks[t].finished {
        OverEngaged(st, t);
        return;
      }
      SubreqFinalize(t, fuel);
      ghost var b := st;
      var stop: bool := *;
      if fuel == 0 || stop {
        Finalize(t);
        QuietFrame(b, st, {t}, c);
        FrameTrans(a, b, st, c.busy);
        WellOver(a, b, c, st, {t}, {}, t);
        assert {t} - {t} == {};
        OverEngaged(st, t);
        return;
      }
      var key: Option<Key> := *;
      var msgid: nat :| msgid < 0x1_0000;
      RewriteInv(st, c, t, key, msgid);
      QuietTask(st, t, st.tasks[t].(key := key, msgid := msgid));
      QuietFrame(st, Rewrite(st, t, key, msgid), {t}, c);
      RewritePlaced(st, t, key, msgid);
      TaskWell(st, t, st.tasks[t].(key := key, msgid := msgid));
      st := Rewrite(st, t, key, msgid);
      FrameTrans(a, b, st, c.busy);
      WellThen(a, b, st, {t}, {});
      ghost var d := st;
      StepOn(t, fuel - 1);
      FrameTrans(a, d, st, c.busy);
      WellMore(d, st, {}, {}, {t}, {});
      WellThen(a, d, st, {t}, {});
      WellTask(a, st, {t}, {}, t);
      assert {t} - {t} == {};
    }

    method StepOn(t: TaskId, fuel: nat)
      requires Valid() && t in st.tasks && t !in c.busy && c.loose == {} && Placed(st, t) == 0
      requires !st.tasks[t].finished && !st.tasks[t].leading && st.tasks[t].pending == []
      modifies `st, `c, `steps
      ensures old(steps) <= steps
      ensures Valid() && c == old(c) && Frame(old(st), st, c.busy)
      ensures Engaged(st, t) && Well(old(st), st, {}, {})
      decreases fuel, 3, 0
    {
      hide Inv, Frame, Placed, Stored, Quiet, Well, Engaged;
      ghost var a := st;
      var done: bool, again: bool, udp: bool := *, *, *;
      if done {
        Finalize(t);
        QuietFrame(a, st, {t}, c);
        WellRefl(a);
        WellOver(a, a, c, st, {}, {}, t);
        assert {} - {t} == {};
        OverEngaged(st, t);
      } else if again {
        Step(t, fuel);
      } else if udp {
        UdpTaskStep(t, fuel);
      } else {
        var addr: Addr := *;
        TcpTaskStep(t, addr, fuel);
      }
    }

    /** Gives up on a task: its open sessions are closed, its followers stepped, and it is finalised. */
    method GiveUp(t: TaskId, fuel: nat)
      requires Valid() && t in st.tasks && t !in c.busy && c.loose == {} && !st.tasks[t].finished
      modifies `st, `c, `steps
      ensures old(steps) <= steps
      ensures Valid() && c == old(c) && Frame(old(st), st, c.busy) && Well(old(st), st, {}, {})
      ensures Over(st, t)
      decreases fuel, 2, 1
    {
      hide Inv, Frame, Placed, Quiet, Well;
      ghost var a := st;
      SubreqFinalize(t, fuel);
      ghost var b := st;
      Finalize(t);
      QuietFrame(b, st, {t}, c);
      FrameTrans(a, b, st, c.busy);
      WellOver(a, b, c, st, {t}, {}, t);
      assert {t} - {t} == {};
    }

    /** A query over UDP: the task joins the leader of its question or leads it with a datagram on the way. */
    method UdpTaskStep(t: TaskId, fuel: nat)
      requires Valid() && t in st.tasks && t !in c.busy && c.loose == {} && Placed(st, t) == 0
      requires !st.tasks[t].finished && !st.tasks[t].leading && st.tasks[t].pending == []
      modifies `st, `c, `steps
      ensures old(steps) <= steps
      ensures Valid() && c == old(c) && Frame(old(st), st, c.busy)
      ensures Engaged(st, t) && Well(old(st), st, {}, {})
      ensures Over(st, t) || Follows(st, t) || Awaits(st, t)
      decreases fuel, 2, 4
    {
      hide Inv, Frame, Placed, Stored, Well;
      ghost var a := st;
      var queued := SubreqEnqueue(t);
      if queued {
        LeaderAt(a, c, a.tasks[t].key.value);
        FollowEngaged(a, a.subreqOut[a.tasks[t].key.value], t);
        FollowsNow(a, t);
        return;
      }
      var sent := Retransmit(t);
      if sent {
        LaunchEngaged(a, st, t);
      }
      ghost var b := st;
      if sent {
        SubreqLead(t);
        FrameTrans(a, b, st, c.busy);
        WellThen(a, b, st, {}, {});
        var timer: bool := *;
        if timer {
          return;
        }
      }
      ghost var d := st;
      GiveUp(t, fuel);
      FrameTrans(a, d, st, c.busy);
      WellThen(a, d, st, {}, {});
      OverEngaged(st, t);
    }

    /** A query over TCP: the task goes on the connection to `addr`; if that fails, it is stepped again or given up. */
    method TcpTaskStep(t: TaskId, addr: Addr, fuel: nat)
      requires Valid() && t in st.tasks && t !in c.busy && c.loose == {} && Placed(st, t) == 0
      requires !st.tasks[t].finished && !st.tasks[t].leading && st.tasks[t].pending == []
      modifies `st, `c, `steps
      ensures old(steps) <= steps
      ensures Valid() && c == old(c) && Frame(old(st), st, c.busy)
      ensures Engaged(st, t) && Well(old(st), st, {}, {})
      ensures Over(st, t) || Aboard(st, t, addr) || Stepped(old(steps), steps, multiset{t})
      decreases fuel, 2, 4
    {
      hide Inv, Frame, Placed, Stored, Well, Engaged, Stepped, Aboard;
      ghost var a := st;
      FrameRefl(st, c.busy);
      WellRefl(st);
      var usable: bool := *;
      var r := Refused;
      if usable {
        r := Connect(t, addr);
      }
      if r == Done {
        return;
      }
      ghost var b := st;
      if r == Again {
        SubreqFinalize(t, fuel);
        ghost var d, log := st, steps;
        FrameTrans(a, b, d, c.busy);
        WellMore(a, b, {}, {}, {t}, {});
        WellThen(a, b, d, {t}, {});
        Step(t, fuel);
        FrameTrans(a, d, st, c.busy);
        WellMore(d, st, {}, {}, {t}, {});
        WellThen(a, d, st, {t}, {});
        WellTask(a, st, {t}, {}, t);
        assert {t} - {t} == {};
        SteppedOne(log, steps, t);
        SteppedWithin(old(steps), log, steps, steps, multiset{t});
      } else {
        GiveUp(t, fuel);
        FrameTrans(a, b, st, c.busy);
        WellThen(a, b, st, {}, {});
        OverEngaged(st, t);
      }
    }

    /** Puts a task on the connection to `addr`: one being set up, an established one, or a new one.
        A registered connection is never closing. */
    method Connect(t: TaskId, addr: Addr) returns (r: Outcome)
      requires Valid() && t in st.tasks && t !in c.busy && c.loose == {} && Placed(st, t) == 0
      requires !st.tasks[t].finished && !st.tasks[t].leading && st.tasks[t].pending == []
      modifies `st, `c, `steps
      ensures steps == old(steps)
      ensures Valid() && c == old(c) && Frame(old(st), st, c.busy) && Well(old(st), st, {}, {})
      ensures r != Done ==> t in st.tasks && !st.tasks[t].finished && !st.tasks[t].leading && Placed(st, t) == 0 && st.tasks[t].pending == []
      ensures r == Done ==> t in st.tasks && Engaged(st, t) && Aboard(st, t, addr)
    {
      hide Inv, Frame, Placed, Stored, Well;
      if addr in st.tcpWaiting {
        var s := st.tcpWaiting[addr];
        WaitingAt(st, c, addr);
        assert !st.sessions[s].closing;
        QueuedInv(st, c, s, t);
        QueuedFrame(st, c, s, t);
        QueuedPlaced(st, s, t);
        QueuedNeat(st, s, t);
        QueuedLast(st, s, t);
        st := Queued(st, s, t);
        r := Done;
      } else if addr in st.tcpConnected {
        ConnectedAt(st, c, addr);
        assert !st.sessions[st.tcpConnected[addr]].closing;
        var ok := ExistingConnection(st.tcpConnected[addr], t);
        r := if ok then Done else Refused;
      } else {
        r := MakeConnection(t, addr);
      }
    }

    method ExistingConnection(s: SessId, t: TaskId) returns (ok: bool)
      requires Valid() && t in st.tasks && t !in c.busy && c.loose == {} && Placed(st, t) == 0
      requires !st.tasks[t].finished && !st.tasks[t].leading && st.tasks[t].pending == []
      requires s in st.sessions && OpenTo(st, s, st.sessions[s].peer) && !st.sessions[s].connecting
      requires st.sessions[s].peer in st.tcpConnected && st.tcpConnected[st.sessions[s].peer] == s
      requires NotWaited(st, s)
      modifies `st, `c, `steps
      ensures steps == old(steps)
      ensures Valid() && c == old(c) && Frame(old(st), st, c.busy) && Well(old(st), st, {}, {})
      ensures !ok ==> t in st.tasks && !st.tasks[t].finished && !st.tasks[t].leading && Placed(st, t) == 0 && st.tasks[t].pending == []
      ensures !ok ==> s in st.sessions && (LivesAt(st, s, old(st).sessions[s].peer) || Dropped(st, s))
      ensures ok ==> t in st.tasks && Engaged(st, t) && LivesAt(st, s, old(st).sessions[s].peer) && t in st.sessions[s].tasks.Values
    {
      hide Inv, Frame, FrameBut, Placed, Stored, Holders, Well, NotWaited, Unregistered;
      ghost var a, c0 := st, c;
      RegisteredAt(st, s);
      Drive(st, c, t);
      c := c.(busy := c.busy + {t});
      ok := SendWaiting(s);
      ShapeKept(a, st, c.busy, s);
      NeatTcp(a, st, s);
      WellSess(a, st, {}, {s}, s);
      assert {s} - {s} == {};
      ButFrame(a, st, c.busy, s);
      TaskDriven(a, st, c.busy, t);
      At(st, c, t);
      Undrive(st, c, t);
      FrameLess(a, st, c.busy, c0.busy);
      c := c.(busy := c.busy - {t});
      assert c == c0;
      var full: bool := *;
      if !ok || full {
        return false;
      }
      ghost var b := st;
      SameNotWaited(a, b, s);
      RegisteredAt(st, s);
      ok := SendUpstream(t, s);
      ShapeKept(b, st, c.busy, s);
      NeatTcp(b, st, s);
      WellSess(b, st, {}, {s}, s);
      WellThen(a, b, st, {}, {});
      ButFrame(b, st, c.busy, s);
      FrameTrans(a, b, st, c.busy);
      if !ok {
        ghost var d := st;
        SameNotWaited(b, d, s);
        RegisteredAt(st, s);
        FreeAt(st, c, t);
        Drive(st, c, t);
        c := c.(busy := c.busy + {t});
        Abandon(s);
        ShapeKept(d, st, c.busy, s);
        NeatTcp(d, st, s);
        WellSess(d, st, {}, {s}, s);
        WellThen(a, d, st, {}, {});
        ButFrame(d, st, c.busy, s);
        TaskDriven(d, st, c.busy, t);
        At(st, c, t);
        Undrive(st, c, t);
        FrameLess(d, st, c.busy, c0.busy);
        c := c.(busy := c.busy - {t});
        assert c == c0;
        FrameTrans(a, d, st, c.busy);
      } else {
        EntryStored(st, s, st.tasks[t].msgid);
      }
    }

    /** Finalises what awaits a response on a connection with an empty queue, then drops it. */
    method Abandon(s: SessId)
      requires Valid() && s in st.sessions && st.sessions[s].outgoing && st.sessions[s].tcp && !st.sessions[s].connecting
      requires st.sessions[s].waiting == [] && NotWaited(st, s)
      modifies `st, `c, `steps
      ensures steps == old(steps)
      ensures Valid() && c == old(c) && FrameBut(old(st), st, c.busy, s) && Well(old(st), st, {}, {s}) && s in st.sessions
      ensures st.sessions[s].closing && st.sessions[s].tasks == map[] && st.sessions[s].waiting == [] && Unregistered(st, s)
    {
      hide Inv, FrameBut, Well, NotWaited;
      ghost var a := st;
      FinalizeTable(s);
      ghost var b := st;
      SameNotWaited(a, b, s);
      DropConnection(s);
      ButTrans(a, b, st, c.busy, s);
      WellThen(a, b, st, {}, {s});
    }

    method MakeConnection(t: TaskId, addr: Addr) returns (r: Outcome)
      requires Valid() && t in st.tasks && t !in c.busy && c.loose == {} && Placed(st, t) == 0
      requires !st.tasks[t].finished && !st.tasks[t].leading && st.tasks[t].pending == []
      requires addr !in st.tcpWaiting && addr !in st.tcpConnected
      modifies `st, `c, `steps
      ensures steps == old(steps)
      ensures Valid() && c == old(c) && Frame(old(st), st, c.busy) && Well(old(st), st, {}, {})
      ensures r != Done ==> t in st.tasks && !st.tasks[t].finished && !st.tasks[t].leading && Placed(st, t) == 0 && st.tasks[t].pending == []
      ensures r != Done ==> addr !in st.tcpWaiting && addr !in st.tcpConnected
      ensures r == Done ==>
        && t in st.tasks && Engaged(st, t) && addr in st.tcpWaiting && st.tcpWaiting[addr] !in old(st).sessions
        && OpenTo(st, st.tcpWaiting[addr], addr) && st.sessions[st.tcpWaiting[addr]].connecting
        && st.sessions[st.tcpWaiting[addr]].waiting == [t]
    {
      hide Inv, Frame, Placed, Stored, Unregistered, Well, Queued, Ringing, HungUp;
      FrameRefl(st, c.busy);
      WellRefl(st);
      var spawned: bool, started: bool, connecting: bool := *, *, *;
      if !spawned {
        return Refused;
      }
      MsgIds.FreshKey(st.sessions);
      var s: nat :| s !in st.sessions;
      var tls: bool := *;
      ghost var a := st;
      if !started || !connecting {
        HungUpInv(st, c, s, tls, addr);
        HungUpShape(st, c, s, tls, addr);
        HungUpWell(st, s, tls, addr);
        HungUpMaps(st, s, tls, addr);
        st := HungUp(Dialled(st, s, tls, addr), s, addr);
        return if started then Again else Refused;
      }
      FreeAgain(st, c, t);
      Ring(t, s, tls, addr);
      r := Done;
    }

    /** A fresh session is registered as waiting, its connect request is out, and the task is its first in the queue. */
    method Ring(t: TaskId, s: SessId, tls: bool, addr: Addr)
      requires Valid() && Free(st, c, t) && s !in st.sessions && addr !in st.tcpWaiting && addr !in st.tcpConnected
      modifies `st, `c, `steps
      ensures steps == old(steps)
      ensures Valid() && c == old(c) && Frame(old(st), st, c.busy) && Well(old(st), st, {}, {})
      ensures t in st.tasks && Engaged(st, t) && addr in st.tcpWaiting && st.tcpWaiting[addr] == s && OpenTo(st, s, addr)
      ensures st.sessions[s].connecting && st.sessions[s].waiting == [t]
    {
      hide Inv, Frame, Placed, Stored, Unregistered, Well, Queued, Ringing, Free;
      ghost var a := st;
      FreeAt(st, c, t);
      RingingInv(st, c, s, tls, addr);
      RingingShape(st, c, s, tls, addr);
      RingingWell(st, s, tls, addr);
      RingingQueued(st, s, tls, addr, t);
      st := Ringing(st, s, tls, addr);
      ghost var b := st;
      FreeAgain(st, c, t);
      QueuedInv(st, c, s, t);
      QueuedFrame(st, c, s, t);
      QueuedPlaced(st, s, t);
      QueuedNeat(st, s, t);
      st := Queued(st, s, t);
      FrameTrans(a, b, st, c.busy);
      WellThen(a, b, st, {}, {});
    }

    // ----- events: requests and responses (worker.c:1559-1630, 1784-1831) -----

    /** A request made by the daemon itself. */
    method ResolveExec(fuel: nat)
      requires Ready()
      modifies `st, `c, `steps
      ensures old(steps) <= steps
      ensures Ready()
      ensures Stepped(old(steps), steps, multiset{old(st).next}) && Engaged(st, old(st).next)
    {
      hide Inv, Frame, Placed, Stored, Create, Well, Orderly, Engaged, Stepped;
      var t := st.next;
      CreateInv(st, c, None);
      CreateShape(st, None);
      CreateWell(st, c, None);
      OrderlyBut(st, Create(st, None), lost, strays, {t});
      st := Create(st, None);
      MoorNew(st, c, t);
      ghost var b := st;
      Step(t, fuel);
      SteppedOne(old(steps), steps, t);
      OrderlyWell(b, st, lost + {t}, strays);
      OrderlyFound(st, lost, strays, t);
    }

    /** A query from a client.  On TCP it is listed in the client's table. */
    method ClientQuery(s: SessId, fuel: nat)
      requires Ready() && s in st.sessions && !st.sessions[s].outgoing
      modifies this
      ensures old(steps) <= steps
      ensures Ready() && lost == old(lost)
      ensures strays == old(strays) +
        if old(st).sessions[s].tcp && old(st).sessions[s].closing then {(s, old(st).next)} else {}
      ensures Stepped(old(steps), steps, multiset{old(st).next}) && Engaged(st, old(st).next)
    {
      hide Inv, Frame, Placed, Stored, Registered, Well, Orderly, Engaged, Stepped;
      var t := st.next;
      RegisteredInv(st, c, s);
      RegisteredShape(st, s);
      RegisteredOrderly(st, c, s, lost, strays);
      strays := strays + if st.sessions[s].tcp && st.sessions[s].closing then {(s, t)} else {};
      st := Registered(st, s);
      ghost var b := st;
      Step(t, fuel);
      SteppedOne(old(steps), steps, t);
      OrderlyWell(b, st, lost + {t}, strays);
      OrderlyFound(st, lost, strays, t);
    }

    /** A response carrying message ID `id`.  It goes to the task that was sent under that ID. */
    method UpstreamReply(s: SessId, id: nat, fuel: nat)
      requires Ready() && s in st.sessions && st.sessions[s].outgoing
      modifies `st, `c, `steps
      ensures old(steps) <= steps
      ensures Ready()
      ensures id !in old(st).sessions[s].tasks ==> st == old(st) && steps == old(steps)
      ensures id in old(st).sessions[s].tasks ==>
        var t := old(st).sessions[s].tasks[id];
        t in old(st).tasks && Engaged(st, t) && (old(st).tasks[t].refs > 1 ==> Stepped(old(steps), steps, multiset{t}))
    {
      hide Inv, Frame, Placed, Stored, Well, Orderly, Engaged, Stepped;
      if id !in st.sessions[s].tasks {
        return;
      }
      ghost var a := st;
      var t := TakeReply(s, id);
      if t in st.tasks {
        ghost var d := st;
        Step(t, fuel);
        SteppedOne(old(steps), steps, t);
        WellMore(d, st, {}, {}, {t}, {});
        WellThen(a, d, st, {t}, {});
      } else {
        OverEngaged(st, t);
      }
      WellTask(a, st, {t}, {}, t);
      assert {t} - {t} == {};
      OrderlyWell(a, st, lost, strays);
    }

    /** Takes the task under a message ID out of the table; the entry's reference may have been the last one. */
    method TakeReply(s: SessId, id: nat) returns (t: TaskId)
      requires Valid() && Idle() && s in st.sessions && st.sessions[s].outgoing && id in st.sessions[s].tasks
      modifies `st, `c, `steps
      ensures steps == old(steps) && Valid() && Well(old(st), st, {t}, {})
      ensures t == old(st).sessions[s].tasks[id] && t in old(st).tasks
      ensures t in st.tasks <==> old(st).tasks[t].refs > 1
      ensures t !in st.tasks ==> Idle()
      ensures t in st.tasks ==>
        && c == Stack(multiset{}, {}, c.loose, {}) && c.loose <= {t}
        && if st.tasks[t].finished then c.loose == {} else Placed(st, t) == 0
    {
      hide Inv, Frame, Placed, Stored, Free, Holders, Unref, Well;
      t := st.sessions[s].tasks[id];
      EntryAlive(st, c, s, id);
      assert st.tasks[t].msgid == id;
      At(st, c, t);
      ghost var a := st;
      TakenNeat(st, s, id);
      if st.sessions[s].tcp {
        EntryFree(st, c, s, id);
        FreeAt(TableTake(st, s, id), c.(held := c.held + multiset{t}), t);
      } else {
        UdpEntry(st, c, s, id);
        Loosen(st, c, t);
        c := c.(loose := c.loose + {t});
        TakePlaced(st, s, id);
      }
      TableTakeInv(st, c, s, id);
      st := TableTake(st, s, id);
      c := c.(held := c.held + multiset{t});
      LastRef(st, c, t);
      ghost var b, c1 := st, c;
      TaskUnref(t);
      assert c.held == multiset{};
      WellQuiet(a, b, c1, st, {t}, {}, {});
      assert {t} + {} == {t};
      if t !in st.tasks {
        Tighten(st, c, t);
        c := c.(loose := c.loose - {t});
      }
    }

    // ----- events: writes and timers (worker.c:551-567, 984-1072) -----

    /** The callback of a write.  A failed one to an upstream takes the task under the writer's message ID off the
        table, and nobody steps it. */
    method WriteDone(w: nat, failed: bool)
      requires Ready() && w in st.writes
      modifies this
      ensures steps == old(steps) && strays == old(strays)
      ensures Ready() && st.writes == old(st).writes - {w}
      ensures var t, s := old(st).writes[w].task, old(st).writes[w].session;
        t in old(st).tasks && s in old(st).sessions && lost == old(lost) + if failed then Struck(old(st), s, t) else {}
    {
      hide Inv, Quiet, Stored, Settled, Well, Orderly, Placed, Holders, Struck, SameCore, WriteTake;
      var t, s := st.writes[w].task, st.writes[w].session;
      ghost var a := st;
      TakeWrite(w);
      ghost var b, finished := st, st.tasks[t].finished;
      StruckSame(a, w, s, t);
      OnSend(t, Some(s), failed);
      ghost var d, c1 := st, c;
      DropWriter(t, finished);
      ghost var struck := if failed then Struck(a, s, t) else {};
      WrittenWell(a, w, d, c1, st, struck);
      OrderlyBut(a, st, lost, strays, struck);
      lost := lost + struck;
    }

    /** A write leaves the table of outstanding ones; its reference is on the stack. */
    method TakeWrite(w: nat)
      requires Valid() && Idle() && w in st.writes
      modifies `st, `c, `steps
      ensures steps == old(steps) && Valid() && st == WriteTake(old(st), w)
      ensures var t, s := old(st).writes[w].task, old(st).writes[w].session;
        && t in old(st).tasks && t in st.tasks && s in old(st).sessions && s in st.sessions
        && (!old(st).sessions[s].outgoing ==> st.tasks[t].finished)
        && c == Stack(multiset{t}, {}, {}, if st.tasks[t].finished then {t} else {})
    {
      hide Inv;
      var t := st.writes[w].task;
      WriteAt(st, c, w);
      if st.tasks[t].finished {
        CastOff(st, c, t);
        c := c.(adrift := c.adrift + {t});
      }
      WriteTakeInv(st, c, w);
      st := WriteTake(st, w);
      c := c.(held := c.held + multiset{t});
    }

    /** Drops the reference of a write; a finished task's client was settled before. */
    method DropWriter(t: TaskId, ghost finished: bool)
      requires Valid() && t in st.tasks && c == Stack(multiset{t}, {}, {}, if finished then {t} else {})
      requires finished ==> st.tasks[t].source == None
      modifies `st, `c, `steps
      ensures steps == old(steps) && Valid() && Idle() && Quiet(old(st), st, {}) && st.writes == old(st).writes
    {
      hide Inv, Quiet, Settled;
      if finished {
        SettledOrphan(st, t);
        SettledUnref(st, t);
      }
      TaskUnref(t);
      if finished {
        MoorSettled(st, c, t);
        c := c.(adrift := c.adrift - {t});
      }
      assert c.held == multiset{};
    }

    /** The timer of an open UDP session.  It lists exactly the task it was opened for. */
    method UdpTimeout(s: SessId, fuel: nat)
      requires Ready() && s in st.sessions && st.sessions[s].outgoing && !st.sessions[s].tcp && !st.sessions[s].closing
      modifies `st, `c, `steps
      ensures old(steps) <= steps
      ensures Ready()
      ensures var t := old(st).sessions[s].owner; Stepped(old(steps), steps, multiset{t}) && Engaged(st, t)
    {
      hide Inv, Frame, Placed, Stored, Holders, Well, Orderly, Engaged, Stepped;
      var t := st.sessions[s].owner;
      OrderlyOwned(st, lost, strays, s);
      OwnTable(st, c, t, s);
      assert |st.sessions[s].tasks| == 1 && st.sessions[s].tasks[st.tasks[t].msgid] == t && st.sessions[s].waiting == [];
      At(st, c, t);
      ghost var a := st;
      Step(t, fuel);
      SteppedOne(old(steps), steps, t);
      OrderlyWell(a, st, lost, strays);
    }

    /** The retransmission timer of an open UDP session opens at most one more session, and never more than four. */
    method OnRetransmit(s: SessId)
      requires Ready() && s in st.sessions && st.sessions[s].outgoing && !st.sessions[s].tcp && !st.sessions[s].closing
      modifies `st, `c, `steps
      ensures steps == old(steps)
      ensures Ready()
      ensures var t := old(st).sessions[s].owner;
        && t in old(st).tasks
        && (st == old(st) || ByMisfire(old(st), st, t) || (|old(st).tasks[t].pending| < 4 && ByLaunch(old(st), st, t)))
    {
      hide Inv, Frame, Placed, Stored, Holders, ByLaunch, ByMisfire, Well, Orderly;
      var t := st.sessions[s].owner;
      OrderlyOwned(st, lost, strays, s);
      OwnTable(st, c, t, s);
      assert |st.sessions[s].tasks| == 1 && st.sessions[s].tasks[st.tasks[t].msgid] == t && st.sessions[s].waiting == [];
      At(st, c, t);
      ghost var a := st;
      var sent := Retransmit(t);
      OrderlyWell(a, st, lost, strays);
    }

    // ----- events: connections (worker.c:686-793, 815-981; session.c:388-398) -----

    /** Steps every task queued on an upstream session that is in neither connection map. */
    method RetryQueue(s: SessId, fuel: nat)
      requires Valid() && Idle() && s in st.sessions && st.sessions[s].outgoing && st.sessions[s].tcp && Unregistered(st, s)
      modifies `st, `c, `steps
      ensures old(steps) <= steps
      ensures Valid() && Idle() && s in st.sessions && Unregistered(st, s)
      ensures st.sessions[s] == old(st).sessions[s].(waiting := [])
      ensures Stepped(old(steps), steps, multiset(old(st).sessions[s].waiting)) && Well(old(st), st, {}, {})
    {
      hide Inv, Frame, Unregistered, Placed, Stored, Free, Quiet, Stepped, Well;
      ghost var a, all, n := st, st.sessions[s].waiting, 0;
      SteppedNone(steps);
      WellRefl(st);
      while st.sessions[s].waiting != []
        invariant old(steps) <= steps && Well(a, st, {}, {})
        invariant Valid() && Idle() && s in st.sessions && Unregistered(st, s)
        invariant st.sessions[s] == old(st).sessions[s].(waiting := st.sessions[s].waiting)
        invariant 0 <= n <= |all| && st.sessions[s].waiting == all[n..] && Stepped(old(steps), steps, multiset(all[..n]))
        decreases |st.sessions[s].waiting|
      {
        ghost var b, log := st, steps;
        RetryHead(s, false, fuel);
        WellThen(a, b, st, {}, {});
        SteppedThen(old(steps), log, steps, multiset(all[..n]), multiset{all[n]});
        assert all[..n + 1] == all[..n] + [all[n]];
        n := n + 1;
      }
      assert all[..n] == all;
    }

    /** Pops the first queued task and steps it; with `cancel`, first takes its message ID out of the table, which is
        empty as long as there is a queue. */
    method RetryHead(s: SessId, cancel: bool, fuel: nat)
      requires Valid() && Idle() && s in st.sessions && st.sessions[s].outgoing && st.sessions[s].tcp && Unregistered(st, s)
      requires st.sessions[s].waiting != [] && (cancel ==> st.sessions[s].tasks == map[])
      modifies `st, `c, `steps
      ensures old(steps) <= steps
      ensures Valid() && Idle() && s in st.sessions && Unregistered(st, s) && Well(old(st), st, {}, {})
      ensures st.sessions[s] == old(st).sessions[s].(waiting := old(st).sessions[s].waiting[1..])
      ensures Stepped(old(steps), steps, multiset{old(st).sessions[s].waiting[0]})
    {
      hide Inv, Frame, Unregistered, Placed, Stored, Free, Quiet, Stepped, Well, Engaged;
      ghost var a := st;
      var t := PopHead(s, cancel);
      FreeAt(st, c, t);
      ghost var b := st;
      Step(t, fuel);
      SteppedOne(old(steps), steps, t);
      WellMore(b, st, {}, {}, {t}, {});
      WellThen(a, b, st, {t}, {});
      WellTask(a, st, {t}, {}, t);
      LeftAlone(b, st, c.busy, s);
      ghost var d, c1 := st, c;
      TaskUnref(t);
      WellQuiet(a, d, c1, st, {t} - {t}, {}, {});
      assert {t} - {t} + {} == {};
      QuietKeys(d, st, {});
      SameUnregistered(d, st, s);
      assert c.held == multiset{};
    }

    method PopHead(s: SessId, cancel: bool) returns (t: TaskId)
      requires Valid() && Idle() && s in st.sessions && st.sessions[s].outgoing && st.sessions[s].tcp && Unregistered(st, s)
      requires st.sessions[s].waiting != [] && (cancel ==> st.sessions[s].tasks == map[])
      modifies `st, `c, `steps
      ensures steps == old(steps)
      ensures Valid() && c == Stack(multiset{t}, {}, {}, {}) && t in st.tasks && Free(st, c, t)
      ensures t == old(st).sessions[s].waiting[0] && st == QueuePop(old(st), s)
      ensures s in st.sessions && Unregistered(st, s) && Well(old(st), st, {t}, {})
    {
      hide Inv, Unregistered, Placed, Stored, Free, FrameBut, Well;
      t := st.sessions[s].waiting[0];
      HeadFree(st, c, s);
      QueuePopInv(st, c, s);
      SameUnregistered(st, QueuePop(st, s), s);
      DequeuedNeat(st, s);
      st := QueuePop(st, s);
      c := c.(held := c.held + multiset{t});
      FreeAt(st, c, t);
      assert c == Stack(multiset{t}, {}, {}, {});
      if cancel {
        CancelWait(s, t);
      }
    }

    /** Gives the waiting tasks of a forgotten session another step each and closes it. */
    method RetryAndClose(s: SessId, fuel: nat)
      requires Valid() && Idle() && s in st.sessions && st.sessions[s].outgoing && st.sessions[s].tcp && Unregistered(st, s)
      requires st.sessions[s].tasks == map[] && !st.sessions[s].connecting
      modifies `st, `c, `steps
      ensures old(steps) <= steps
      ensures Valid() && Idle() && s in st.sessions
      ensures st.sessions[s].closing && st.sessions[s].waiting == [] && st.sessions[s].tasks == map[]
      ensures Stepped(old(steps), steps, multiset(old(st).sessions[s].waiting)) && Well(old(st), st, {}, {})
    {
      hide Inv, Unregistered, Stepped, Well;
      ghost var a := st;
      RetryQueue(s, fuel);
      TcpNotPending(st, c, s);
      CloseInv(st, c, s);
      ClosedWell(st, s);
      ghost var b := st;
      st := Close(st, s);
      WellThen(a, b, st, {}, {});
    }

    /** A connect request ended.  A session with an outstanding connect request is never closing and lists no task;
        one that is still waiting has no established rival. */
    method OnConnect(s: SessId, failed: bool, tls: TlsStart, fuel: nat)
      requires Ready() && s in st.sessions && st.sessions[s].connecting
      modifies this
      ensures old(steps) <= steps
      ensures Ready() && s in st.sessions && lost == old(lost) && strays == old(strays) + Left(st, s)
      ensures var peer := old(st).sessions[s].peer; var waiting := peer in old(st).tcpWaiting && old(st).tcpWaiting[peer] == s;
        && (failed || !waiting ==>
              && st.sessions[s].closing && st.sessions[s].waiting == [] && st.sessions[s].tasks == map[]
              && Stepped(old(steps), steps, multiset(old(st).sessions[s].waiting)))
        && (!failed && waiting ==>
              if !old(st).sessions[s].tls || tls == Agreed then
                st.sessions[s].waiting == [] && (LivesAt(st, s, peer) || Dropped(st, s))
              else if tls == UnderWay then
                st == SetConnecting(old(st), s, false)
              else
                st.sessions[s].waiting == [] && Unregistered(st, s) && (st.sessions[s].closing ==> st.sessions[s].tasks == map[]))
    {
      hide Inv, Frame, Unregistered, Placed, Stored, Stepped, Well, Orderly;
      var peer := st.sessions[s].peer;
      ghost var a := st;
      ConnectingAt(st, c, s);
      assert !st.sessions[s].closing && st.sessions[s].tasks == map[];
      SetConnectingInv(st, c, s, false);
      ConnectedWell(st, s);
      st := SetConnecting(st, s, false);
      ghost var b := st;
      var waiting := peer in st.tcpWaiting && st.tcpWaiting[peer] == s;
      if !waiting || failed {
        GiveUpConnect(s, fuel);
        WellThen(a, b, st, {}, {});
        OrderlyWell(a, st, lost, strays);
        assert strays + Left(st, s) == strays;
        return;
      }
      if st.sessions[s].tls && tls == UnderWay {
        OrderlyWell(a, st, lost, strays);
        assert strays + Left(st, s) == strays;
        return;
      }
      Established(s, tls == Agreed);
      WellMore(a, b, {}, {}, {}, {s});
      WellThen(a, b, st, {}, {s});
      OrderlyLeft(a, st, lost, strays, s);
      strays := strays + Left(st, s);
    }

    /** The connection failed or came too late: its queue is stepped and it is closed. */
    method GiveUpConnect(s: SessId, fuel: nat)
      requires Valid() && Idle() && s in st.sessions && OpenTo(st, s, st.sessions[s].peer) && !st.sessions[s].connecting
      requires st.sessions[s].tasks == map[]
      requires forall a | a in st.tcpConnected :: st.tcpConnected[a] != s
      requires forall a | a in st.tcpWaiting && st.tcpWaiting[a] == s :: a == st.sessions[s].peer
      modifies `st, `c, `steps
      ensures old(steps) <= steps
      ensures Valid() && Idle() && s in st.sessions && Well(old(st), st, {}, {})
      ensures st.sessions[s].closing && st.sessions[s].waiting == [] && st.sessions[s].tasks == map[]
      ensures Stepped(old(steps), steps, multiset(old(st).sessions[s].waiting))
    {
      hide Inv, Stepped, Well;
      var peer := st.sessions[s].peer;
      ghost var a := st;
      WellRefl(a);
      if peer in st.tcpWaiting && st.tcpWaiting[peer] == s {
        DelWaitingInv(st, c, peer);
        MapsWell(st, DelWaiting(st, peer));
        st := DelWaiting(st, peer);
      }
      ghost var b := st;
      ConnectingUnregistered(st, s);
      RetryAndClose(s, fuel);
      WellThen(a, b, st, {}, {});
    }

    /** The connection is there: plain ones are registered, TLS ones end their handshake; then the queue is sent. */
    method Established(s: SessId, agreed: bool)
      requires Valid() && Idle() && s in st.sessions && OpenTo(st, s, st.sessions[s].peer) && !st.sessions[s].connecting
      requires st.sessions[s].tasks == map[] && st.sessions[s].peer in st.tcpWaiting && st.tcpWaiting[st.sessions[s].peer] == s
      modifies `st, `c, `steps
      ensures steps == old(steps)
      ensures Valid() && Idle() && s in st.sessions && Well(old(st), st, {}, {s}) && SameShape(old(st).sessions[s], st.sessions[s])
      ensures st.sessions[s].waiting == [] && NotWaited(st, s)
      ensures !old(st).sessions[s].tls || agreed ==> LivesAt(st, s, old(st).sessions[s].peer) || Dropped(st, s)
      ensures old(st).sessions[s].tls && !agreed ==>
        Unregistered(st, s) && (st.sessions[s].closing ==> st.sessions[s].tasks == map[])
    {
      hide Inv, Frame, FrameBut, Unregistered, Placed, Stored, Well, NotWaited;
      var peer := st.sessions[s].peer;
      ghost var a := st;
      WaitingAt(st, c, peer);
      if st.sessions[s].tls {
        ghost var sent := Shake(s, !agreed);
        if !agreed {
          Gone(st, c, s);
        }
      } else {
        DelWaitingInv(st, c, peer);
        st := DelWaiting(st, peer);
        NotWaiting(st, c, s);
        AddConnectedInv(st, c, peer, s);
        st := AddConnected(st, peer, s);
        MapsWell(a, st);
        WellMore(a, st, {}, {}, {}, {s});
        NowNotWaited(st, s);
      }
      ghost var b := st;
      var ok := SendWaiting(s);
      ButShape(b, st, c.busy, s);
      WellThen(a, b, st, {}, {s});
      if ok {
        SameNotWaited(b, st, s);
        SameUnregistered(b, st, s);
      } else {
        DroppedNotWaited(st, s);
      }
    }

    /** The connection took too long: its queue is stepped, and it is forgotten though its request is still out. */
    method ConnectTimeout(s: SessId, fuel: nat)
      requires Ready() && s in st.sessions && st.sessions[s].connecting
      modifies `st, `c, `steps
      ensures old(steps) <= steps
      ensures Ready() && s in st.sessions && st.sessions[s] == old(st).sessions[s].(waiting := []) && Unregistered(st, s)
      ensures Stepped(old(steps), steps, multiset(old(st).sessions[s].waiting))
    {
      hide Inv, Unregistered, Well, Orderly, Stepped;
      var peer := st.sessions[s].peer;
      ghost var a := st;
      ConnectingAt(st, c, s);
      assert st.sessions[s].tasks == map[];
      DelWaitingInv(st, c, peer);
      MapsWell(st, DelWaiting(st, peer));
      st := DelWaiting(st, peer);
      ghost var b := st;
      ConnectingUnregistered(st, s);
      RetryQueue(s, fuel);
      WellThen(a, b, st, {}, {});
      OrderlyWell(a, st, lost, strays);
    }

    /** A TLS handshake with an upstream ended.  Whatever was sent before a later send failed stays behind in the
        table of the closed session. */
    method OnHandshake(s: SessId, failed: bool) returns (ghost sent: nat)
      requires Ready() && s in st.sessions && OpenTo(st, s, st.sessions[s].peer) && !st.sessions[s].connecting
      modifies this
      ensures steps == old(steps) && lost == old(lost)
      ensures Ready() && s in st.sessions && strays == old(strays) + Left(st, s)
      ensures failed ==> st == DelWaiting(old(st), old(st).sessions[s].peer)
      ensures !failed ==> st.sessions[s].waiting == [] && (LivesAt(st, s, old(st).sessions[s].peer) || Dropped(st, s))
      ensures !failed && Dropped(st, s) ==> (st.sessions[s].tasks == map[] <==> old(st).sessions[s].tasks == map[] && sent == 0)
      ensures sent <= |old(st).sessions[s].waiting|
    {
      hide Inv, Unregistered, Well, Orderly, NotWaited;
      ghost var a := st;
      OrderlyOwned(st, lost, strays, s);
      sent := Shake(s, failed);
      OrderlyLeft(a, st, lost, strays, s);
      strays := strays + Left(st, s);
    }

    method Shake(s: SessId, failed: bool) returns (ghost sent: nat)
      requires Valid() && Idle() && s in st.sessions && OpenTo(st, s, st.sessions[s].peer) && !st.sessions[s].connecting
      modifies `st, `c, `steps
      ensures steps == old(steps)
      ensures Valid() && Idle() && Well(old(st), st, {}, {s})
      ensures s in st.sessions && SameShape(old(st).sessions[s], st.sessions[s]) && !st.sessions[s].connecting && NotWaited(st, s)
      ensures failed ==> st == DelWaiting(old(st), old(st).sessions[s].peer)
      ensures !failed ==> st.sessions[s].waiting == [] && (LivesAt(st, s, old(st).sessions[s].peer) || Dropped(st, s))
      ensures !failed ==> |st.sessions[s].tasks| == |old(st).sessions[s].tasks| + sent
      ensures sent <= |old(st).sessions[s].waiting|
    {
      hide Inv, Unregistered, Well, NotWaited, LivesAt;
      sent := 0;
      ghost var a := st;
      var ok := Promote(s, failed);
      WellMore(a, st, {}, {}, {}, {s});
      if failed {
        return;
      }
      ghost var b := st;
      if ok {
        ok, sent := SendQueue(s, st.sessions[s].peer);
        WellThen(a, b, st, {}, {s});
      }
      if !ok {
        ghost var d := st;
        DropHalfSent(s);
        WellThen(a, d, st, {}, {s});
      }
    }

    /** The address leaves the waiting map; after a successful handshake it is a connected one, if it was waiting or
        this very session was connected before.  The peer is never in both maps. */
    method Promote(s: SessId, failed: bool) returns (ok: bool)
      requires Valid() && Idle() && s in st.sessions && OpenTo(st, s, st.sessions[s].peer) && !st.sessions[s].connecting
      modifies `st, `c, `steps
      ensures steps == old(steps)
      ensures Valid() && Idle() && Well(old(st), st, {}, {}) && NotWaited(st, s)
      ensures st == old(st).(tcpWaiting := st.tcpWaiting, tcpConnected := st.tcpConnected)
      ensures failed ==> st == DelWaiting(old(st), old(st).sessions[s].peer)
      ensures !failed && ok ==> LivesAt(st, s, old(st).sessions[s].peer)
    {
      hide Inv, Well;
      var peer := st.sessions[s].peer;
      ghost var a := st;
      var deleted := peer in st.tcpWaiting;
      if deleted {
        WaitingAt(st, c, peer);
        assert peer !in st.tcpConnected;
      }
      DelWaitingInv(st, c, peer);
      st := DelWaiting(st, peer);
      NotWaiting(st, c, s);
      ok := true;
      if !failed {
        if deleted {
          AddConnectedInv(st, c, peer, s);
          st := AddConnected(st, peer, s);
        } else if peer !in st.tcpConnected || st.tcpConnected[peer] != s {
          ok := false;
        }
      }
      MapsWell(a, st);
    }

    /** Sends the queue of an established connection up to the first failure; counts what was sent. */
    method SendQueue(s: SessId, peer: Addr) returns (ok: bool, ghost sent: nat)
      requires Valid() && Idle() && LivesAt(st, s, peer) && !st.sessions[s].connecting && NotWaited(st, s)
      modifies `st, `c, `steps
      ensures steps == old(steps)
      ensures Valid() && Idle() && s in st.sessions && Well(old(st), st, {}, {s}) && NotWaited(st, s)
      ensures st.sessions[s] == old(st).sessions[s].(waiting := st.sessions[s].waiting, tasks := st.sessions[s].tasks)
      ensures sent <= |old(st).sessions[s].waiting| && |st.sessions[s].tasks| == |old(st).sessions[s].tasks| + sent
      ensures ok ==> LivesAt(st, s, peer) && st.sessions[s].waiting == []
    {
      hide Inv, FrameBut, Well, NotWaited;
      ghost var a := st;
      sent, ok := 0, true;
      WellRefl(a);
      WellMore(a, a, {}, {}, {}, {s});
      while ok && st.sessions[s].waiting != []
        invariant steps == old(steps)
        invariant Valid() && Idle() && s in st.sessions && Well(a, st, {}, {s}) && NotWaited(st, s)
        invariant st.sessions[s] == a.sessions[s].(waiting := st.sessions[s].waiting, tasks := st.sessions[s].tasks)
        invariant sent + |st.sessions[s].waiting| <= |a.sessions[s].waiting| && |st.sessions[s].tasks| == |a.sessions[s].tasks| + sent
        invariant st.tcpConnected == a.tcpConnected
        decreases |st.sessions[s].waiting|, ok
      {
        ghost var b := st;
        ok := SendHead(s);
        WellThen(a, b, st, {}, {s});
        SameNotWaited(b, st, s);
        if ok {
          ghost var k: nat :| k !in b.sessions[s].tasks && st.sessions[s].tasks == b.sessions[s].tasks[k := b.sessions[s].waiting[0]];
          OneMore(b.sessions[s].tasks, k, b.sessions[s].waiting[0]);
          sent := sent + 1;
        }
      }
    }

    /** Finalises the rest of the queue and closes the connection, with what its table holds. */
    method DropHalfSent(s: SessId)
      requires Valid() && Idle() && s in st.sessions && st.sessions[s].outgoing && st.sessions[s].tcp && !st.sessions[s].connecting
      requires NotWaited(st, s)
      modifies `st, `c, `steps
      ensures steps == old(steps)
      ensures Valid() && Idle() && s in st.sessions && Well(old(st), st, {}, {s}) && NotWaited(st, s) && Dropped(st, s)
      ensures st.sessions[s] == old(st).sessions[s].(waiting := [], closing := true)
    {
      hide Inv, FrameBut, Well, NotWaited, Unregistered;
      ghost var a := st;
      FinalizeQueue(s);
      ghost var b := st;
      SameNotWaited(a, b, s);
      DropConnection(s);
      WellThen(a, b, st, {}, {s});
      DroppedNotWaited(st, s);
    }

    // ----- events: the end of TCP sessions (worker.c:1714-1782, io.c:143-201, session.c:419-470) -----

    /** The peer is gone: its registrations are deleted, upstream tasks are stepped, clients' tasks detached. */
    method EndTcp(s: SessId, fuel: nat)
      requires Ready() && s in st.sessions && st.sessions[s].tcp && !st.sessions[s].connecting
      modifies `st, `c, `steps
      ensures old(steps) <= steps
      ensures Ready()
      ensures s in st.sessions && st.sessions[s].closing && st.sessions[s].tasks == map[] && st.sessions[s].waiting == []
      ensures old(st).sessions[s].outgoing ==>
        && Stepped(old(steps), steps, multiset(old(st).sessions[s].waiting))
        && TableStepped(old(st).sessions[s].tasks, map[], old(steps), steps)
    {
      hide Inv, Frame, Unregistered, Placed, Stored, Free, Quiet, Stepped, TableStepped, Well, Orderly;
      ghost var a := st;
      OrderlyOwned(st, lost, strays, s);
      Unregister(s);
      MapsWell(a, st);
      ghost var b := st;
      if st.sessions[s].outgoing {
        RetryAll(s, fuel);
        WellThen(a, b, st, {}, {});
        TcpNotPending(st, c, s);
        CloseInv(st, c, s);
        ClosedWell(st, s);
        ghost var d := st;
        st := Close(st, s);
        WellThen(a, d, st, {}, {});
      } else {
        DisconnectAll(s);
        WellThen(a, b, st, {}, {});
      }
      OrderlyWell(a, st, lost, strays);
    }

    /** Steps every task queued on an upstream session, and every task that awaits a response.  The source first takes
        each queued task's message ID out of the table; while there is a queue, the table is empty. */
    method RetryAll(s: SessId, fuel: nat)
      requires Valid() && Idle() && s in st.sessions && st.sessions[s].outgoing && st.sessions[s].tcp
      requires Unregistered(st, s) && !st.sessions[s].connecting && Halved(st.sessions[s])
      modifies `st, `c, `steps
      ensures old(steps) <= steps
      ensures Valid() && Idle() && s in st.sessions && Unregistered(st, s) && Well(old(st), st, {}, {})
      ensures st.sessions[s] == old(st).sessions[s].(waiting := [], tasks := map[])
      ensures Stepped(old(steps), steps, multiset(old(st).sessions[s].waiting))
      ensures TableStepped(old(st).sessions[s].tasks, map[], old(steps), steps)
    {
      hide Inv, Frame, Unregistered, Placed, Stored, Free, Quiet, Stepped, TableStepped, Well;
      ghost var a, all, n := st, st.sessions[s].waiting, 0;
      SteppedNone(steps);
      WellRefl(st);
      while st.sessions[s].waiting != []
        invariant Valid() && Idle() && s in st.sessions && Unregistered(st, s) && Well(a, st, {}, {})
        invariant st.sessions[s] == a.sessions[s].(waiting := st.sessions[s].waiting)
        invariant 0 <= n <= |all| && st.sessions[s].waiting == all[n..]
        invariant old(steps) <= steps && Stepped(old(steps), steps, multiset(all[..n]))
        decreases |st.sessions[s].waiting|
      {
        ghost var b, log := st, steps;
        RetryHead(s, true, fuel);
        WellThen(a, b, st, {}, {});
        SteppedThen(old(steps), log, steps, multiset(all[..n]), multiset{all[n]});
        assert all[..n + 1] == all[..n] + [all[n]];
        n := n + 1;
      }
      assert all[..n] == all;
      ghost var b, log := st, steps;
      RetryTable(s, fuel);
      WellThen(a, b, st, {}, {});
      SteppedWithin(old(steps), old(steps), log, steps, multiset(all));
      TableWithin(a.sessions[s].tasks, old(steps), log, steps);
    }

    /** Steps every task that awaits a response on an upstream session. */
    method RetryTable(s: SessId, fuel: nat)
      requires Valid() && Idle() && s in st.sessions && st.sessions[s].outgoing && st.sessions[s].tcp
      requires Unregistered(st, s) && !st.sessions[s].connecting && st.sessions[s].waiting == []
      modifies `st, `c, `steps
      ensures old(steps) <= steps
      ensures Valid() && Idle() && s in st.sessions && Unregistered(st, s)
      ensures st.sessions[s] == old(st).sessions[s].(tasks := map[])
      ensures TableStepped(old(st).sessions[s].tasks, map[], old(steps), steps) && Well(old(st), st, {}, {})
    {
      hide Inv, Frame, Unregistered, Placed, Stored, Free, Quiet, Stepped, TableStepped, Well;
      ghost var a, table := st, st.sessions[s].tasks;
      TableStart(table, steps);
      WellRefl(st);
      while st.sessions[s].tasks != map[]
        invariant Valid() && Idle() && s in st.sessions && Unregistered(st, s) && Well(a, st, {}, {})
        invariant st.sessions[s] == old(st).sessions[s].(tasks := st.sessions[s].tasks)
        invariant old(steps) <= steps && TableStepped(table, st.sessions[s].tasks, old(steps), steps)
        decreases |st.sessions[s].tasks|
      {
        ghost var b, now, log := st, st.sessions[s].tasks, steps;
        RetryEntry(s, fuel);
        WellThen(a, b, st, {}, {});
        ghost var k :| k in now && st.sessions[s].tasks == now - {k} && Stepped(log, steps, multiset{now[k]});
        TableNext(table, now, k, old(steps), log, steps);
      }
    }

    /** Deletes whatever is registered under a session's address. */
    method Unregister(s: SessId)
      requires Valid() && Idle() && s in st.sessions
      modifies `st, `c, `steps
      ensures steps == old(steps)
      ensures Valid() && Idle() && st == old(st).(tcpWaiting := st.tcpWaiting, tcpConnected := st.tcpConnected) && Unregistered(st, s)
    {
      hide Inv;
      var peer := st.sessions[s].peer;
      DelWaitingInv(st, c, peer);
      st := DelWaiting(st, peer);
      DelConnectedInv(st, c, peer);
      st := DelConnected(st, peer);
      Gone(st, c, s);
    }

    method RetryEntry(s: SessId, fuel: nat)
      requires Valid() && Idle() && s in st.sessions && st.sessions[s].outgoing && st.sessions[s].tcp && Unregistered(st, s)
      requires st.sessions[s].tasks != map[]
      modifies `st, `c, `steps
      ensures old(steps) <= steps
      ensures Valid() && Idle() && s in st.sessions && Unregistered(st, s) && Well(old(st), st, {}, {})
      ensures st.sessions[s] == old(st).sessions[s].(tasks := st.sessions[s].tasks)
      ensures |st.sessions[s].tasks| < |old(st).sessions[s].tasks|
      ensures exists k | k in old(st).sessions[s].tasks ::
        && st.sessions[s].tasks == old(st).sessions[s].tasks - {k}
        && Stepped(old(steps), steps, multiset{old(st).sessions[s].tasks[k]})
    {
      hide Inv, Frame, Unregistered, Placed, Stored, Free, Quiet, Stepped, Well, Engaged;
      ghost var a := st;
      var k :| k in st.sessions[s].tasks;
      var t := st.sessions[s].tasks[k];
      EntryFree(st, c, s, k);
      TableTakeInv(st, c, s, k);
      SameUnregistered(st, TableTake(st, s, k), s);
      Smaller(st.sessions[s].tasks, k);
      TakenNeat(st, s, k);
      st := TableTake(st, s, k);
      c := c.(held := c.held + multiset{t});
      FreeAt(st, c, t);
      ghost var b := st;
      Step(t, fuel);
      SteppedOne(old(steps), steps, t);
      WellMore(b, st, {}, {}, {t}, {});
      WellThen(a, b, st, {t}, {});
      WellTask(a, st, {t}, {}, t);
      LeftAlone(b, st, c.busy, s);
      ghost var d, c1 := st, c;
      TaskUnref(t);
      WellQuiet(a, d, c1, st, {t} - {t}, {}, {});
      assert {t} - {t} + {} == {};
      QuietKeys(d, st, {});
      SameUnregistered(d, st, s);
      assert c.held == multiset{};
    }

    method DisconnectAll(s: SessId)
      requires Valid() && Idle() && s in st.sessions && !st.sessions[s].outgoing
      modifies `st, `c, `steps
      ensures steps == old(steps)
      ensures Valid() && Idle() && s in st.sessions && Well(old(st), st, {}, {})
      ensures st.sessions[s].closing && st.sessions[s].tasks == map[] && st.sessions[s].waiting == []
    {
      hide Inv, Quiet, Detached, Well;
      ghost var a := st;
      WellRefl(st);
      while st.sessions[s].tasks != map[]
        invariant steps == old(steps)
        invariant Valid() && Idle() && s in st.sessions && !st.sessions[s].outgoing && Well(a, st, {}, {})
        decreases |st.sessions[s].tasks|
      {
        var u :| u in st.sessions[s].tasks;
        ClientKey(st, c, s, u);
        assert st.tasks[u].source == Some(s);
        DetachedInv(st, c, u);
        Smaller(st.sessions[s].tasks, u);
        ghost var b := st;
        Detach(u);
        WellQuiet(a, b, c, st, {}, {}, {});
        WellMore(a, st, {} + {}, {}, {}, {});
      }
      ClientUnregistered(st, c, s);
      QuietClose(st, c, s);
      ClosedWell(st, s);
      ghost var b := st;
      st := Close(st, s);
      WellThen(a, b, st, {}, {});
    }

    /** The periodic timer of a TCP session: tasks past the resolution time limit are finalised, and an
        idle session without tasks is closed. */
    method TcpTimeout(s: SessId, late: set<TaskId>, idle: bool, fuel: nat)
      requires Ready() && s in st.sessions && st.sessions[s].tcp && !st.sessions[s].closing && !st.sessions[s].connecting
      modifies `st, `c, `steps
      ensures old(steps) <= steps
      ensures Ready() && s in st.sessions && LateOver(st, old(st).sessions[s].tasks, late)
      ensures idle && st.sessions[s].tasks == map[] ==> st.sessions[s].closing
    {
      hide Inv, Frame, Unregistered, LateOver, Lasts, Well, Orderly;
      ghost var a := st;
      WellRefl(a);
      if st.sessions[s].tasks == map[] {
        LateNone(st, late);
      } else {
        FinalizeExpired(s, late, fuel);
        if st.sessions[s].closing || st.sessions[s].tasks != map[] {
          OrderlyWell(a, st, lost, strays);
          return;
        }
      }
      ghost var b := st;
      EmptyQueue(s);
      WellThen(a, b, st, {}, {});
      LateOverLasts(b, st, a.sessions[s].tasks, late);
      if idle {
        ghost var d := st;
        CloseIdle(s);
        WellThen(a, d, st, {}, {});
        SameLasts(d, st, st);
        LateOverLasts(d, st, a.sessions[s].tasks, late);
      }
      OrderlyWell(a, st, lost, strays);
    }

    /** Finalises whatever is still queued on a session without tasks. */
    method EmptyQueue(s: SessId)
      requires Valid() && Idle() && s in st.sessions && st.sessions[s].tcp && !st.sessions[s].closing && !st.sessions[s].connecting
      requires st.sessions[s].tasks == map[]
      modifies `st, `c, `steps
      ensures steps == old(steps)
      ensures Valid() && Idle() && s in st.sessions && Well(old(st), st, {}, {}) && Lasts(old(st), st)
      ensures st.sessions[s] == old(st).sessions[s].(waiting := [])
    {
      hide Inv, FrameBut, Lasts, Well;
      ghost var a := st;
      LastsRefl(a);
      WellRefl(a);
      if st.sessions[s].outgoing {
        FinalizeQueue(s);
        ButLasts(a, st, c.busy, s);
        NeatTcp(a, st, s);
        WellSess(a, st, {}, {s}, s);
        assert {s} - {s} == {};
      } else {
        ClientUnregistered(st, c, s);
      }
    }

    /** Closes an empty TCP session; an upstream one is forgotten first. */
    method CloseIdle(s: SessId)
      requires Valid() && Idle() && s in st.sessions && st.sessions[s].tcp && !st.sessions[s].connecting
      requires st.sessions[s].tasks == map[] && st.sessions[s].waiting == []
      modifies `st, `c, `steps
      ensures steps == old(steps)
      ensures Valid() && Idle() && st.tasks == old(st).tasks && Well(old(st), st, {}, {})
      ensures s in st.sessions && st.sessions[s] == old(st).sessions[s].(closing := true) && Unregistered(st, s)
    {
      hide Inv, Unregistered, Well;
      ghost var a := st;
      if st.sessions[s].outgoing {
        Unregister(s);
        TcpNotPending(st, c, s);
      } else {
        ClientUnregistered(st, c, s);
      }
      MapsWell(a, st);
      ghost var b := st;
      CloseInv(st, c, s);
      ClosedWell(st, s);
      SameUnregistered(st, Close(st, s), s);
      st := Close(st, s);
      WellThen(a, b, st, {}, {});
    }

    method FinalizeExpired(s: SessId, late: set<TaskId>, fuel: nat)
      requires Valid() && Idle() && s in st.sessions && st.sessions[s].tcp && !st.sessions[s].connecting
      modifies `st, `c, `steps
      ensures old(steps) <= steps
      ensures Valid() && Idle() && s in st.sessions && SameShape(old(st).sessions[s], st.sessions[s]) && !st.sessions[s].connecting
      ensures LateOver(st, old(st).sessions[s].tasks, late) && Well(old(st), st, {}, {})
    {
      hide Inv, Frame, Unregistered, StillListed, NoRepeats, Expiring, Collected, LateOver, Lasts, Over, Well;
      ghost var first := st;
      var q := CollectExpired(s, late);
      CollectedListed(st, late, s, q);
      assert q[0..] == q;
      var shape := st.sessions[s];
      var i := 0;
      while i < |q|
        invariant old(steps) <= steps
        invariant 0 <= i <= |q| && Valid() && c == Stack(Expiring(q[i..]), {}, {}, {})
        invariant s in st.sessions && SameShape(shape, st.sessions[s]) && !st.sessions[s].connecting
        invariant shape.outgoing ==> StillListed(st, s, q[i..])
        invariant NoRepeats(q[i..]) && forall j | 0 <= j < i :: Over(st, q[j].1)
        invariant Well(first, st, {}, {})
      {
        var k, t := q[i].0, q[i].1;
        assert q[i..] == [(k, t)] + q[i + 1..] && q[i..][1..] == q[i + 1..];
        ExpiringFirst(q[i..]);
        RestNoRepeats(q[i..]);
        ghost var a := st;
        if shape.outgoing {
          ExpireUpstream(s, k, t, q[i + 1..], fuel);
        } else {
          ExpireClient(s, t, fuel);
        }
        assert c == Stack(Expiring(q[i + 1..]), {}, {}, {});
        WellThen(first, a, st, {}, {});
        forall j | 0 <= j < i ensures Over(st, q[j].1) { OverLasts(a, st, q[j].1); }
        i := i + 1;
      }
      assert q[i..] == [];
      CollectedNone(map[], late);
      CollectedOver(st, old(st).sessions[s].tasks, late, q);
    }

    /** The tasks of a table that are past the time limit, each with a reference. */
    method CollectExpired(s: SessId, late: set<TaskId>) returns (q: seq<(nat, TaskId)>)
      requires Valid() && Idle() && s in st.sessions
      modifies `st, `c, `steps
      ensures steps == old(steps)
      ensures Valid() && c == Stack(Expiring(q), {}, {}, {}) && st.sessions == old(st).sessions
      ensures st.tcpWaiting == old(st).tcpWaiting && st.tcpConnected == old(st).tcpConnected
      ensures Collected(st.sessions[s].tasks, late, {}, q) && Well(old(st), st, {}, {})
    {
      hide Inv, Quiet, Holders, Placed, Ref, Collected, Expiring, Well;
      q := [];
      ghost var a := st;
      WellRefl(st);
      ghost var table := st.sessions[s].tasks;
      var rest := st.sessions[s].tasks.Keys;
      CollectedNone(table, late);
      while rest != {}
        invariant steps == old(steps)
        invariant Valid() && c == Stack(Expiring(q), {}, {}, {}) && st.sessions == old(st).sessions
        invariant st.tcpWaiting == old(st).tcpWaiting && st.tcpConnected == old(st).tcpConnected
        invariant rest <= table.Keys && Collected(table, late, rest, q) && Well(a, st, {}, {})
        decreases |rest|
      {
        var k :| k in rest;
        CollectedOne(table, late, rest, q, k);
        rest := rest - {k};
        var t := st.sessions[s].tasks[k];
        if t in late {
          EntryAlive(st, c, s, k);
          RefSessions(st, t);
          ghost var b, c1 := st, c;
          TaskRef(t);
          WellQuiet(a, b, c1, st, {}, {}, {});
          WellMore(a, st, {} + {}, {}, {}, {});
          q := q + [(k, t)];
        }
      }
    }

    /** Finalises a task past the time limit, closing its open sessions and stepping its followers first. */
    method Expire(t: TaskId, fuel: nat)
      requires Valid() && t in st.tasks && t in c.held && c.busy == {} && c.loose == {}
      modifies `st, `c, `steps
      ensures old(steps) <= steps
      ensures Valid() && c == old(c) && Frame(old(st), st, {}) && t in st.tasks
      ensures !old(st).tasks[t].finished ==> Settled(st, t)
      ensures st.tasks[t].finished && Well(old(st), st, {}, {})
    {
      hide Inv, Frame, Quiet, Settled, Placed, Well;
      FrameRefl(st, {});
      WellRefl(st);
      if !st.tasks[t].finished {
        ghost var a := st;
        SubreqFinalize(t, fuel);
        ghost var b := st;
        Finalize(t);
        QuietFrame(b, st, {t}, c);
        FrameTrans(a, b, st, {});
        WellOver(a, b, c, st, {t}, {}, t);
        assert {t} - {t} == {};
      }
    }

    /** Drops a reference; upstream sessions and the connection maps stay as they are. */
    method Release1(t: TaskId, ghost s: SessId)
      requires Valid() && t in c.held && s in st.sessions
      modifies `st, `c, `steps
      ensures steps == old(steps)
      ensures Valid() && c == old(c).(held := old(c).held - multiset{t})
      ensures st.tcpWaiting == old(st).tcpWaiting && st.tcpConnected == old(st).tcpConnected
      ensures s in st.sessions && SameShape(old(st).sessions[s], st.sessions[s])
      ensures st.sessions[s].outgoing ==> st.sessions[s] == old(st).sessions[s]
      ensures old(Settled(st, t)) ==> Settled(st, t)
      ensures Lasts(old(st), st) && Well(old(st), st, {}, {})
    {
      hide Inv, Quiet, Settled, Lasts, Well;
      ghost var a, c1 := st, c;
      HeldAlive(st, c, t);
      if Settled(st, t) { SettledUnref(st, t); }
      TaskUnref(t);
      QuietKeys(a, st, {});
      QuietLasts(a, st, {});
      QuietWell(a, c1, st, {});
    }

    /** Finalises one expired task of an upstream session.  What the table holds under its key is that task. */
    method ExpireUpstream(s: SessId, k: nat, t: TaskId, ghost rest: seq<(nat, TaskId)>, fuel: nat)
      requires Valid() && t in c.held && c.busy == {} && c.loose == {}
      requires s in st.sessions && st.sessions[s].outgoing && st.sessions[s].tcp && !st.sessions[s].connecting
      requires StillListed(st, s, [(k, t)] + rest) && NoRepeats([(k, t)] + rest)
      modifies `st, `c, `steps
      ensures old(steps) <= steps
      ensures Valid() && c == old(c).(held := old(c).held - multiset{t})
      ensures s in st.sessions && SameShape(old(st).sessions[s], st.sessions[s]) && !st.sessions[s].connecting
      ensures StillListed(st, s, rest) && Lasts(old(st), st) && Over(st, t) && Well(old(st), st, {}, {})
    {
      hide Inv, Frame, Unregistered, Stored, Settled, StillListed, NoRepeats, Lasts, Well;
      HeldAlive(st, c, t);
      ListedKey(st, c, s, k, t, rest);
      TakenListed(st, st, s, k, t, rest);
      if st.tasks[t].msgid in st.sessions[s].tasks {
        assert st.tasks[t].msgid == k && st.sessions[s].tasks[k] == t;
        TakenListed(st, TableTake(st, s, k), s, k, t, rest);
        ExpireListed(s, k, t, rest, fuel);
      } else {
        ghost var b := st;
        Expire(t, fuel);
        FrameListed(b, st, s, rest);
        FrameLasts(b, st, {});
      }
      ghost var e := st;
      Release1(t, s);
      SameListed(e, st, s, rest);
      WellThen(old(st), e, st, {}, {});
      LastsThen(old(st), e, st);
      OverLasts(e, st, t);
    }

    /** Takes a task out of an upstream table, finalises it and drops the entry's reference. */
    method ExpireListed(s: SessId, k: nat, t: TaskId, ghost rest: seq<(nat, TaskId)>, fuel: nat)
      requires Valid() && t in c.held && c.busy == {} && c.loose == {}
      requires s in st.sessions && st.sessions[s].outgoing && st.sessions[s].tcp && !st.sessions[s].connecting
      requires k in st.sessions[s].tasks && st.sessions[s].tasks[k] == t && StillListed(TableTake(st, s, k), s, rest)
      modifies `st, `c, `steps
      ensures old(steps) <= steps
      ensures Valid() && c == old(c)
      ensures s in st.sessions && SameShape(old(st).sessions[s], st.sessions[s]) && !st.sessions[s].connecting
      ensures StillListed(st, s, rest) && Lasts(old(st), st) && Over(st, t) && Well(old(st), st, {}, {})
    {
      hide Inv, Frame, Unregistered, Stored, Settled, StillListed, Lasts, Well;
      ghost var a, c0 := st, c;
      TableTakeInv(st, c, s, k);
      TakenNeat(st, s, k);
      st := TableTake(st, s, k);
      c := c.(held := c.held + multiset{t});
      HeldAlive(st, c, t);
      ghost var b := st;
      Expire(t, fuel);
      FrameListed(b, st, s, rest);
      FrameLasts(b, st, {});
      SameLasts(old(st), b, st);
      TakenOver(a, b, st, t);
      ghost var d := st;
      Release1(t, s);
      WellThen(a, d, st, {}, {});
      SameListed(d, st, s, rest);
      LastsThen(old(st), d, st);
      OverLasts(d, st, t);
      assert c == c0;
    }

    method ExpireClient(s: SessId, t: TaskId, fuel: nat)
      requires Valid() && t in c.held && c.busy == {} && c.loose == {} && c.adrift == {}
      requires s in st.sessions && !st.sessions[s].outgoing
      modifies `st, `c, `steps
      ensures old(steps) <= steps
      ensures Valid() && c == old(c).(held := old(c).held - multiset{t})
      ensures s in st.sessions && SameShape(old(st).sessions[s], st.sessions[s]) && !st.sessions[s].connecting
      ensures Lasts(old(st), st) && Over(st, t) && Well(old(st), st, {}, {})
    {
      hide Inv, Frame, Stored, Settled, Lasts, Well;
      HeldAlive(st, c, t);
      if t in st.sessions[s].tasks {
        ExpireOpen(s, t, fuel);
      } else {
        ghost var b := st;
        Expire(t, fuel);
        ShapeFramed(b, st, {}, s);
        FrameLasts(b, st, {});
      }
      ghost var d := st;
      Release1(t, s);
      WellThen(old(st), d, st, {}, {});
      LastsThen(old(st), d, st);
      OverLasts(d, st, t);
      ClientUnregistered(st, c, s);
    }

    /** An expired task still in its client's table. */
    method ExpireOpen(s: SessId, t: TaskId, fuel: nat)
      requires Valid() && t in c.held && c.busy == {} && c.loose == {} && c.adrift == {}
      requires s in st.sessions && !st.sessions[s].outgoing && t in st.sessions[s].tasks && t in st.tasks
      modifies `st, `c, `steps
      ensures old(steps) <= steps
      ensures Valid() && c == old(c)
      ensures s in st.sessions && SameShape(old(st).sessions[s], st.sessions[s])
      ensures Lasts(old(st), st) && Over(st, t) && Well(old(st), st, {}, {})
    {
      hide Inv, Frame, Stored, Settled, SameShape, Lasts, Well;
      ghost var c0 := c;
      ClientKey(st, c, s, t);
      if st.tasks[t].finished {
        TableTakeInv(st, c, s, t);
        KeepsShape(st, s, t);
        TakenNeat(st, s, t);
        st := TableTake(st, s, t);
        c := c.(held := c.held + multiset{t});
        ghost var b := st;
        Release1(t, s);
        OverLasts(b, st, t);
        TakenOver(old(st), b, st, t);
        ShapeThen(old(st), b, st, s);
        SameLasts(old(st), b, st);
      } else {
        CastOff(st, c, t);
        c := c.(adrift := c.adrift + {t});
        ExpireUnfinished(s, t, fuel);
        MoorSettled(st, c, t);
        c := c.(adrift := c.adrift - {t});
      }
      assert c == c0;
    }

    method ExpireUnfinished(s: SessId, t: TaskId, fuel: nat)
      requires Valid() && t in c.held && c.busy == {} && c.loose == {} && t in c.adrift
      requires s in st.sessions && !st.sessions[s].outgoing && t in st.sessions[s].tasks && st.sessions[s].tasks[t] == t
      requires t in st.tasks && !st.tasks[t].finished
      modifies `st, `c, `steps
      ensures old(steps) <= steps
      ensures Valid() && c == old(c) && Settled(st, t)
      ensures s in st.sessions && SameShape(old(st).sessions[s], st.sessions[s])
      ensures Lasts(old(st), st) && Over(st, t) && Well(old(st), st, {}, {})
    {
      hide Inv, Frame, Stored, Settled, SameShape, Lasts, Well;
      ghost var c0 := c;
      TableTakeInv(st, c, s, t);
      TakenNeat(st, s, t);
      KeepsShape(st, s, t);
      st := TableTake(st, s, t);
      c := c.(held := c.held + multiset{t});
      ghost var b := st;
      Expire(t, fuel);
      ShapeFramed(b, st, {}, s);
      ShapeThen(old(st), b, st, s);
      FrameLasts(b, st, {});
      SameLasts(old(st), b, st);
      TakenOver(old(st), b, st, t);
      ghost var d := st;
      Release1(t, s);
      WellThen(old(st), d, st, {}, {});
      ShapeThen(old(st), d, st, s);
      LastsThen(old(st), d, st);
      OverLasts(d, st, t);
      assert c == c0;
    }

    // ----- events: sessions come and go -----

    method Accept(s: SessId, tcp: bool, tls: bool, peer: Addr)
      requires Ready() && s !in st.sessions
      modifies `st, `c, `steps
      ensures steps == old(steps)
      ensures Ready()
      ensures st == Open(old(st), s, Session(false, tcp, tls, false, false, 0, peer, map[], []))
    {
      hide Inv, Well, Orderly;
      var y := Session(false, tcp, tls, false, false, 0, peer, map[], []);
      ghost var a := st;
      OpenInv(st, c, s, y);
      st := Open(st, s, y);
      OpenWell(a, st, s);
      OrderlyWell(a, st, lost, strays);
    }

    /** A closed session's memory is released once its handle has no outstanding request.  The source asserts that it
        is empty, which it is unless a stray is still listed; nothing else refers to it then. */
    method FreeSession(s: SessId)
      requires Ready() && s in st.sessions && st.sessions[s].closing
      requires st.sessions[s].outgoing || st.sessions[s].tcp
      requires NoStray(st, s, strays)
      requires forall w | w in st.writes :: st.writes[w].session != s
      modifies `st, `c, `steps
      ensures steps == old(steps)
      ensures Ready() && st == Release(old(st), s)
    {
      hide Inv, Orderly;
      EmptyUnlessStray(st, lost, strays, s);
      ReleaseInv(st, c, s);
      OrderlyRelease(st, lost, strays, s);
      st := Release(st, s);
    }

    // ----- the event loop -----

    constructor ()
      ensures Ready() && st == Empty() && lost == {} && strays == {}
    {
      st := Empty();
      c := Stack(multiset{}, {}, {}, {});
      steps := [];
      lost := {};
      strays := {};
      new;
      EmptyInv();
    }

    /** One event of the loop.  An event that its guard rules out does not occur. */
    method Handle(e: Event, fuel: nat)
      requires Ready()
      modifies this
      ensures old(steps) <= steps
      ensures Ready()
      ensures old(lost) <= lost && (!(e.Written? && e.failed) ==> lost == old(lost))
      ensures old(strays) <= strays && (!e.Query? && !e.Connected? && !e.Handshake? ==> strays == old(strays))
    {
      hide Inv, Orderly;
      match e {
        case Listen(s, tcp, tls, peer) => if s !in st.sessions { Accept(s, tcp, tls, peer); }
        case Request => ResolveExec(fuel);
        case Query(s) => if s in st.sessions && !st.sessions[s].outgoing { ClientQuery(s, fuel); }
        case Reply(s, id) => if s in st.sessions && st.sessions[s].outgoing { UpstreamReply(s, id, fuel); }
        case Written(w, failed) => if w in st.writes { WriteDone(w, failed); }
        case Timeout(s) =>
          if s in st.sessions && st.sessions[s].outgoing && !st.sessions[s].tcp && !st.sessions[s].closing { UdpTimeout(s, fuel); }
        case Resend(s) =>
          if s in st.sessions && st.sessions[s].outgoing && !st.sessions[s].tcp && !st.sessions[s].closing { OnRetransmit(s); }
        case Connected(s, failed, tls) => if s in st.sessions && st.sessions[s].connecting { OnConnect(s, failed, tls, fuel); }
        case ConnectExpired(s) => if s in st.sessions && st.sessions[s].connecting { ConnectTimeout(s, fuel); }
        case Handshake(s, failed) =>
          if s in st.sessions && st.sessions[s].outgoing && st.sessions[s].tcp && st.sessions[s].tls
             && !st.sessions[s].closing && !st.sessions[s].connecting {
            ghost var sent := OnHandshake(s, failed);
          }
        case Tick(s, late, idle) =>
          if s in st.sessions && st.sessions[s].tcp && !st.sessions[s].closing && !st.sessions[s].connecting {
            TcpTimeout(s, late, idle, fuel);
          }
        case Hangup(s) =>
          if s in st.sessions && st.sessions[s].tcp && !st.sessions[s].connecting { EndTcp(s, fuel); }
        case Closed(s) =>
          if s in st.sessions && st.sessions[s].closing && (st.sessions[s].outgoing || st.sessions[s].tcp)
             && st.sessions[s].tasks == map[] && forall w | w in st.writes :: st.writes[w].session != s {
            FreeSession(s);
          }
      }
    }

    /** Any run of the event loop. */
    method Run(events: seq<Event>, depths: seq<nat>)
      requires Ready() && |depths| == |events|
      modifies this
      ensures old(steps) <= steps
      ensures Ready() && Sound(st) && Served(st, lost, strays)
      ensures (forall e | e in events :: e.Written? ==> !e.failed) ==> lost == old(lost)
      ensures (forall e | e in events :: !e.Query? && !e.Connected? && !e.Handshake?) ==> strays == old(strays)
    {
      hide Inv, Sound, Orderly, Served;
      for i := 0 to |events|
        invariant old(steps) <= steps
        invariant Ready()
        invariant (forall e | e in events :: e.Written? ==> !e.failed) ==> lost == old(lost)
        invariant (forall e | e in events :: !e.Query? && !e.Connected? && !e.Handshake?) ==> strays == old(strays)
      {
        assert events[i] in events;
        Handle(events[i], depths[i]);
      }
      InvSound(st);
      OrderlyServed(st, c, lost, strays);
    }
  }
}
