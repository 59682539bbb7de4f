/** The worker's tables and the reference-counted query tasks they share. */
module WorkerState {
  import opened Prelude
  import opened Sums

  type TaskId = nat
  type SessId = nat
  type Addr = nat
  type Key = nat

  /** A query resolution task.  `primary` says that the request context points back at the task,
      `source` is the client session of the request, `key` the question key of the packet buffer
      (None when the buffer holds no question), `waiting` the followers of a leading task. */
  datatype Task = Task(
    refs: int,
    primary: bool,
    source: Option<SessId>,
    key: Option<Key>,
    msgid: nat,
    waiting: seq<TaskId>,
    pending: seq<SessId>,
    finished: bool,
    leading: bool)

  /** A session.  `tasks` is keyed by message ID on upstream sessions and by the task itself on
      client sessions; `connecting` marks an outstanding connect request; `owner` is the task an
      upstream UDP session was opened for. */
  datatype Session = Session(
    outgoing: bool,
    tcp: bool,
    tls: bool,
    closing: bool,
    connecting: bool,
    owner: TaskId,
    peer: Addr,
    tasks: map<nat, TaskId>,
    waiting: seq<TaskId>)

  /** A write handed to the event loop whose callback is still to come. */
  datatype Write = Write(task: TaskId, session: SessId)

  /** `next` is the next unused task identity, `freed` the tasks released so far; `enqueued` and
      `notified` count, per (leader, follower), how often a task queued behind a leader and how
      often a leader stepped a follower. */
  datatype State = State(
    tasks: map<TaskId, Task>,
    sessions: map<SessId, Session>,
    subreqOut: map<Key, TaskId>,
    tcpWaiting: map<Addr, SessId>,
    tcpConnected: map<Addr, SessId>,
    writes: map<nat, Write>,
    concurrent: int,
    rconcurrent: int,
    next: nat,
    freed: set<TaskId>,
    enqueued: multiset<(TaskId, TaskId)>,
    notified: multiset<(TaskId, TaskId)>)

  /** What the C call stack contributes while a callback runs: references held in local variables,
      tasks driven by an active frame, tasks just taken out of the table of one of their UDP
      sessions, and tasks just taken out of their client's table. */
  datatype Stack = Stack(held: multiset<TaskId>, busy: set<TaskId>, loose: set<TaskId>, adrift: set<TaskId>)

  // ----- who holds a reference -----

  ghost function Is(u: TaskId, t: TaskId): nat { if u == t then 1 else 0 }
  ghost function Followers(x: Task, t: TaskId): nat { multiset(x.waiting)[t] }
  ghost function Listed(y: Session, t: TaskId): nat { multiset(y.waiting)[t] + Sum(y.tasks, Is, t) }
  ghost function Upstream(y: Session, t: TaskId): nat {
    if y.outgoing && y.tcp then Listed(y, t) else 0
  }
  ghost function InFlight(w: Write, t: TaskId): nat { Is(w.task, t) }

  /** References to `t` kept in follower lists, session tables and queues, and outstanding writes. */
  ghost function Stored(st: State, t: TaskId): nat {
    Sum(st.tasks, Followers, t) + Sum(st.sessions, Listed, t) + Sum(st.writes, InFlight, t)
  }

  /** The number of places where `t` waits for somebody else to step it. */
  ghost function Placed(st: State, t: TaskId): nat {
    Sum(st.tasks, Followers, t) + Sum(st.sessions, Upstream, t)
  }

  /** Every reference to `t`, including the primary one and those on the C stack. */
  ghost function Holders(st: State, c: Stack, t: TaskId): nat
    requires t in st.tasks
  {
    (if st.tasks[t].primary then 1 else 0) + Stored(st, t) + c.held[t]
  }

  // ----- the invariant -----

  ghost predicate RefsOk(st: State, c: Stack) {
    && (forall t | t in st.tasks :: st.tasks[t].refs == Holders(st, c, t) && st.tasks[t].refs > 0)
    && (forall t | Stored(st, t) > 0 :: t in st.tasks)
    && (forall t | t in c.held :: t in st.tasks)
  }

  ghost predicate TaskOk(st: State, c: Stack, t: TaskId, x: Task) {
    && x.msgid < 0x1_0000
    && (!x.finished ==> x.primary)
    && (x.finished ==> !x.leading && x.pending == [])
    && (!x.leading ==> x.waiting == [])
    && (x.leading ==> x.key.Some? && (t in c.busy || (x.key.value in st.subreqOut && st.subreqOut[x.key.value] == t)))
    && Placed(st, t) <= 1
    && (x.pending != [] || x.leading || t in c.busy ==> Placed(st, t) == 0)
    && (t in c.busy ==> !x.finished)
  }

  ghost predicate PendingOk(st: State, c: Stack, t: TaskId, x: Task) {
    && (forall s | s in x.pending ::
          && s in st.sessions
          && st.sessions[s].outgoing && !st.sessions[s].tcp && !st.sessions[s].closing
          && st.sessions[s].owner == t
          && (t !in c.loose ==> x.msgid in st.sessions[s].tasks))
    && (forall i, j | 0 <= i < j < |x.pending| :: x.pending[i] != x.pending[j])
  }

  ghost predicate Answering(st: State, t: TaskId, s: SessId) {
    exists w | w in st.writes :: st.writes[w] == Write(t, s)
  }

  ghost predicate SourceOk(st: State, c: Stack, t: TaskId, x: Task) {
    x.source.Some? ==>
      var s := x.source.value;
      && s in st.sessions && !st.sessions[s].outgoing
      && (st.sessions[s].tcp ==> t in c.adrift || if x.finished then Answering(st, t, s) else t in st.sessions[s].tasks)
  }

  ghost predicate TasksOk(st: State, c: Stack) {
    forall t | t in st.tasks ::
      TaskOk(st, c, t, st.tasks[t]) && PendingOk(st, c, t, st.tasks[t]) && SourceOk(st, c, t, st.tasks[t])
  }

  /** The entry of a session's task table under key `k` agrees with the task it names. */
  ghost predicate EntryOk(st: State, s: SessId, y: Session, k: nat)
    requires k in y.tasks
  {
    var t := y.tasks[k];
    && t in st.tasks
    && if y.outgoing then
         st.tasks[t].msgid == k && (!y.tcp ==> s in st.tasks[t].pending)
       else
         y.tcp && t == k && st.tasks[t].source == Some(s)
  }

  ghost predicate SessOk(st: State, s: SessId, y: Session) {
    && (y.connecting ==> y.outgoing && y.tcp && !y.closing && y.tasks == map[])
    && (!(y.outgoing && y.tcp) ==> y.waiting == [])
    && (forall k | k in y.tasks :: EntryOk(st, s, y, k))
  }

  /** Only answers are written to clients. */
  ghost predicate WriteOk(st: State, w: Write) {
    && w.session in st.sessions && w.task in st.tasks
    && (!st.sessions[w.session].outgoing ==> st.tasks[w.task].finished)
  }

  ghost predicate SessionsOk(st: State) {
    && (forall s | s in st.sessions :: SessOk(st, s, st.sessions[s]))
    && (forall w | w in st.writes :: WriteOk(st, st.writes[w]))
  }

  ghost predicate LeadersOk(st: State, c: Stack) {
    && (forall k | k in st.subreqOut ::
          var t := st.subreqOut[k];
          t in st.tasks && st.tasks[t].leading && st.tasks[t].key == Some(k) && t !in c.busy)
    && (forall t | t in c.busy :: t in st.tasks)
  }

  /** A usable upstream connection to `a`: open and really going there. */
  ghost predicate OpenTo(st: State, s: SessId, a: Addr) {
    && s in st.sessions
    && st.sessions[s].outgoing && st.sessions[s].tcp && !st.sessions[s].closing
    && st.sessions[s].peer == a
  }

  /** Nothing was sent yet on a connection that is being set up. */
  ghost predicate MapsOk(st: State) {
    && st.tcpWaiting.Keys !! st.tcpConnected.Keys
    && (forall a | a in st.tcpWaiting :: OpenTo(st, st.tcpWaiting[a], a) && st.sessions[st.tcpWaiting[a]].tasks == map[])
    && (forall a | a in st.tcpConnected ::
          OpenTo(st, st.tcpConnected[a], a) && !st.sessions[st.tcpConnected[a]].connecting)
  }

  ghost function FollowerCount(st: State, l: TaskId, f: TaskId): nat {
    if l in st.tasks then Followers(st.tasks[l], f) else 0
  }

  /** The statistics count the live tasks, and every task ever created is either live or freed. */
  ghost predicate LivesOk(st: State) {
    && st.concurrent == |st.tasks| && st.rconcurrent == |st.tasks|
    && st.tasks.Keys !! st.freed
    && (forall t: TaskId :: t in st.tasks || t in st.freed <==> t < st.next)
  }

  /** Every enqueued follower is either still listed or has been stepped by its leader, once. */
  ghost predicate FollowersOk(st: State) {
    forall l: TaskId, f: TaskId :: st.enqueued[(l, f)] == st.notified[(l, f)] + FollowerCount(st, l, f)
  }

  ghost predicate CountsOk(st: State) { LivesOk(st) && FollowersOk(st) }

  ghost predicate Inv(st: State, c: Stack) {
    && RefsOk(st, c) && TasksOk(st, c) && SessionsOk(st) && LeadersOk(st, c) && MapsOk(st) && CountsOk(st)
  }
}
