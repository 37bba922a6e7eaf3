/** The client loop of Communication/core/comm_core.cpp as a state machine.

    One event is one callback that libuv runs on the loop thread, or one submission by a user
    thread.  Any interleaving of enabled events is a run.  Beside the three tables of
    Communication/core/comm_res.cpp the state holds the requests that are still with libuv and a
    history: how often each task's semaphore was posted, and how often each connection was
    reported up and down. */
module ClientCore {
  import opened Common

  import opened GenId

  type TaskId = nat
  type ConnId = nat
  type HandleId = nat

  datatype Task = Rw(conn: ConnId, timeout: nat) | Connect(ip: string, timeout: nat)

  /** A tcp_conn_t with its uv handle. */
  datatype Tcp = Tcp(ip: string, connId: ConnId, reading: bool, closing: bool)

  /** How a submitted connect or write request fares at once. */
  datatype Outcome = Accepted | InitFails | RequestFails

  datatype History = History(kind: map<TaskId, Task>, posts: map<TaskId, nat>,
                             late: set<TaskId>, doubled: set<TaskId>,
                             ups: map<HandleId, nat>, downs: map<HandleId, nat>,
                             born: map<HandleId, nat>, clash: bool)

  datatype Client = Client(
    running: bool,
    tasks: map<TaskId, Task>,
    timers: map<TaskId, Option<HandleId>>,
    conns: map<ConnId, HandleId>,
    handles: map<HandleId, Tcp>,
    queued: map<TaskId, Task>,
    writes: map<TaskId, nat>,
    connects: map<TaskId, HandleId>,
    issued: nat,
    created: nat,
    allocs: nat,
    hist: History)

  const Empty: History := History(map[], map[], {}, {}, map[], map[], map[], false)
  const Init: Client := Client(true, map[], map[], map[], map[], map[], map[], map[], 0, 0, 0, Empty)

  datatype Event =
    | Submit(task: Task)
    | Async(id: TaskId, outcome: Outcome)
    | WriteDone(id: TaskId, ok: bool)
    | Timeout(id: TaskId)
    | ConnectDone(id: TaskId, ok: bool)
    | ReadError(h: HandleId)
    | Response(id: TaskId)
    | Closed(h: HandleId)
    | Shutdown

  // ----- building blocks

  ghost function Posted(posts: map<TaskId, nat>, ids: set<TaskId>): map<TaskId, nat> {
    map i | i in posts :: if i in ids then posts[i] + 1 else posts[i]
  }

  /** _cl_finish_task for every task in `ids`: out of both tables, and the semaphore is posted. */
  ghost function FinishAll(s: Client, ids: set<TaskId>): Client {
    s.(tasks := s.tasks - ids, timers := s.timers - ids, hist := s.hist.(posts := Posted(s.hist.posts, ids)))
  }

  ghost function Finish(s: Client, id: TaskId): Client { FinishAll(s, {id}) }

  /** _safe_uv_close */
  ghost function Shut(handles: map<HandleId, Tcp>, hs: set<HandleId>): map<HandleId, Tcp> {
    map h | h in handles :: if h in hs then handles[h].(closing := true, reading := false) else handles[h]
  }

  ghost function Close(s: Client, h: HandleId): Client { s.(handles := Shut(s.handles, {h})) }

  /** cl_conn_find2 */
  ghost predicate Connected(s: Client, ip: string) {
    exists c :: c in s.conns && s.conns[c] in s.handles && s.handles[s.conns[c]].ip == ip
  }

  ghost function Bump(m: map<HandleId, nat>, h: HandleId): map<HandleId, nat> {
    m[h := (if h in m then m[h] else 0) + 1]
  }

  /** cl_conn_del, and the connection is reported down. */
  ghost function Drop(s: Client, h: HandleId, c: ConnId): Client {
    s.(conns := s.conns - {c}, hist := s.hist.(downs := Bump(s.hist.downs, h)))
  }

  /** The tasks that cl_task_del_by_connId removes. */
  ghost function RwOn(tasks: map<TaskId, Task>, c: ConnId): set<TaskId> {
    set i | i in tasks && tasks[i].Rw? && tasks[i].conn == c
  }

  // ----- one event

  ghost predicate Enabled(s: Client, e: Event) {
    match e
    case Submit(t) => s.running && (t.Rw? ==> t.conn in s.conns)
    case Async(id, _) => id in s.queued
    case WriteDone(id, _) => id in s.writes
    case Timeout(id) => id in s.timers
    case ConnectDone(id, _) => id in s.connects && s.connects[id] in s.handles
    case ReadError(h) => h in s.handles && s.handles[h].reading
    case Response(id) => exists h :: h in s.handles && s.handles[h].reading
    case Closed(h) => h in s.handles && s.handles[h].closing && h !in s.connects.Values
    case Shutdown => s.running
  }

  ghost function SubmitStep(s: Client, t: Task): Client {
    s.(queued := s.queued[s.issued := t], issued := s.issued + 1,
       hist := s.hist.(kind := s.hist.kind[s.issued := t], posts := s.hist.posts[s.issued := 0]))
  }

  /** async_cb for RW */
  ghost function RwStep(s: Client, id: TaskId, conn: ConnId, timeout: nat, outcome: Outcome): Client {
    var s1 := s.(tasks := s.tasks[id := Rw(conn, timeout)]);
    if conn !in s1.conns || !outcome.Accepted? then Finish(s1, id)
    else s1.(writes := s1.writes[id := timeout])
  }

  /** A new tcp handle that has no connection id yet. */
  ghost function Open(s: Client, ip: string, closing: bool): Client {
    s.(created := s.created + 1, handles := s.handles[s.created := Tcp(ip, INVALID_CONNID, false, closing)])
  }

  /** uv_tcp_connect with its timer. */
  ghost function Dial(s: Client, id: TaskId, h: HandleId, timeout: nat): Client {
    s.(connects := s.connects[id := h], timers := if timeout > 0 then s.timers[id := Some(h)] else s.timers)
  }

  /** async_cb for CONNECT, with _do_connect */
  ghost function ConnectStep(s: Client, id: TaskId, ip: string, timeout: nat, outcome: Outcome): Client {
    var s1 := s.(tasks := s.tasks[id := Connect(ip, timeout)]);
    if Connected(s1, ip) || outcome.InitFails? then Finish(s1, id)
    else if outcome.RequestFails? then Finish(Open(s1, ip, true), id)
    else Dial(Open(s1, ip, false), id, s1.created, timeout)
  }

  ghost function AsyncStep(s: Client, id: TaskId, outcome: Outcome): Client
    requires id in s.queued
  {
    var s1 := s.(queued := s.queued - {id});
    if !s.running then Finish(s1, id)
    else match s.queued[id]
      case Rw(conn, timeout) => RwStep(s1, id, conn, timeout, outcome)
      case Connect(ip, timeout) => ConnectStep(s1, id, ip, timeout, outcome)
  }

  /** The history notes a write completion for a task that has already left the table. */
  ghost function NoteLate(hist: History, id: TaskId, gone: bool, ok: bool): History {
    hist.(late := if gone then hist.late + {id} else hist.late,
          doubled := if gone && !ok then hist.doubled + {id} else hist.doubled)
  }

  /** write_cb */
  ghost function WriteStep(s: Client, id: TaskId, ok: bool): Client
    requires id in s.writes
  {
    var s1 := s.(writes := s.writes - {id}, hist := NoteLate(s.hist, id, id !in s.tasks, ok));
    if !ok then Finish(s1, id)
    else if s.writes[id] > 0 then s1.(timers := s1.timers[id := None])
    else s1
  }

  /** timer_cb */
  ghost function TimeoutStep(s: Client, id: TaskId): Client
    requires id in s.timers
  {
    var s1 := s.(timers := s.timers - {id});
    var s2 := if id in s1.tasks then Finish(s1, id) else s1;
    if s.timers[id].Some? then Close(s2, s.timers[id].value) else s2
  }

  /** Some open connection carries the id. */
  ghost predicate InUse(handles: map<HandleId, Tcp>, c: ConnId) {
    exists h :: h in handles && handles[h].connId == c
  }

  /** The connection gets its id, enters the table if the id is free, and is reported up. */
  ghost function EstablishAs(s: Client, h: HandleId, c: ConnId): Client
    requires h in s.handles
  {
    s.(allocs := s.allocs + 1,
       handles := s.handles[h := s.handles[h].(connId := c, reading := true)],
       conns := if c in s.conns then s.conns else s.conns[c := h],
       hist := s.hist.(ups := Bump(s.hist.ups, h), born := s.hist.born[h := s.allocs],
                       clash := s.hist.clash || InUse(s.handles, c)))
  }

  ghost function Establish(s: Client, h: HandleId): Client
    requires h in s.handles
  {
    EstablishAs(s, h, Id(s.allocs))
  }

  /** connect_cb */
  ghost function ConnectedStep(s: Client, id: TaskId, ok: bool): Client
    requires id in s.connects && s.connects[id] in s.handles
  {
    var h := s.connects[id];
    if id !in s.tasks then s.(connects := s.connects - {id})
    else
      var s1 := s.(connects := s.connects - {id}, tasks := s.tasks - {id}, timers := s.timers - {id});
      Finish(if ok then Establish(s1, h) else Close(s1, h), id)
  }

  /** read_cb with a negative length */
  ghost function ReadErrorStep(s: Client, h: HandleId): Client
    requires h in s.handles
  {
    var c := s.handles[h].connId;
    FinishAll(Drop(Close(s, h), h, c), RwOn(s.tasks, c))
  }

  /** A common package in _read_content_process */
  ghost function ResponseStep(s: Client, id: TaskId): Client {
    if id in s.tasks then Finish(s, id) else s.(timers := s.timers - {id})
  }

  ghost function Forget(s: Client, h: HandleId): Client { s.(handles := s.handles - {h}) }

  /** close_cb */
  ghost function ClosedStep(s: Client, h: HandleId): Client
    requires h in s.handles
  {
    var c := s.handles[h].connId;
    Forget(if c in s.conns then Drop(s, h, c) else s, h)
  }

  /** The handles that _client_shutdown closes. */
  ghost function ShutdownHandles(s: Client): set<HandleId> {
    (set c | c in s.conns :: s.conns[c]) + (set i | i in s.timers && s.timers[i].Some? :: s.timers[i].value)
  }

  /** The connections and timers are closed and their tables cleared. */
  ghost function Halt(s: Client): Client {
    s.(running := false, conns := map[], timers := map[], handles := Shut(s.handles, ShutdownHandles(s)))
  }

  /** _client_shutdown */
  ghost function ShutdownStep(s: Client): Client { FinishAll(Halt(s), s.tasks.Keys) }

  ghost function Apply(s: Client, e: Event): Client
    requires Enabled(s, e)
  {
    match e
    case Submit(t) => SubmitStep(s, t)
    case Async(id, outcome) => AsyncStep(s, id, outcome)
    case WriteDone(id, ok) => WriteStep(s, id, ok)
    case Timeout(id) => TimeoutStep(s, id)
    case ConnectDone(id, ok) => ConnectedStep(s, id, ok)
    case ReadError(h) => ReadErrorStep(s, h)
    case Response(id) => ResponseStep(s, id)
    case Closed(h) => ClosedStep(s, h)
    case Shutdown => ShutdownStep(s)
  }

  // ----- runs

  ghost predicate IsRun(s: Client, es: seq<Event>)
    decreases |es|
  {
    es == [] || (Enabled(s, es[0]) && IsRun(Apply(s, es[0]), es[1..]))
  }

  ghost function Final(s: Client, es: seq<Event>): Client
    requires IsRun(s, es)
    decreases |es|
  {
    if es == [] then s else Final(Apply(s, es[0]), es[1..])
  }

  ghost predicate Reachable(s: Client) {
    exists es :: IsRun(Init, es) && Final(Init, es) == s
  }

  lemma {:induction false} RunExtends(s: Client, es: seq<Event>, e: Event)
    requires IsRun(s, es) && Enabled(Final(s, es), e)
    ensures IsRun(s, es + [e]) && Final(s, es + [e]) == Apply(Final(s, es), e)
    decreases |es|
  {
    var fs := es + [e];
    if es == [] {
      assert fs[1..] == [];
    } else {
      RunExtends(Apply(s, es[0]), es[1..], e);
      assert fs[1..] == es[1..] + [e];
    }
  }

  lemma ReachNext(s: Client, e: Event)
    requires Reachable(s) && Enabled(s, e)
    ensures Reachable(Apply(s, e))
  {
    var es :| IsRun(Init, es) && Final(Init, es) == s;
    RunExtends(Init, es, e);
  }

  lemma ReachInit()
    ensures Reachable(Init)
  {
    assert IsRun(Init, []);
  }

  // ----- tasks: who posts the semaphore, and how often

  ghost predicate Waiting(s: Client, id: TaskId) { id in s.queued || id in s.tasks }

  ghost function Get<T>(m: map<TaskId, T>, id: TaskId): Option<T> { if id in m then Some(m[id]) else None }

  /** All that the state says about one task. */
  datatype View = View(kind: Option<Task>, posts: Option<nat>, queued: Option<Task>, task: Option<Task>,
                       timer: bool, writing: bool, dialing: bool, late: bool, doubled: bool)

  ghost function Look(s: Client, id: TaskId): View {
    View(Get(s.hist.kind, id), Get(s.hist.posts, id), Get(s.queued, id), Get(s.tasks, id),
         id in s.timers, id in s.writes, id in s.connects, id in s.hist.late, id in s.hist.doubled)
  }

  const Unknown: View := View(None, None, None, None, false, false, false, false, false)

  ghost predicate ViewOk(v: View) {
    && v.kind.Some? && v.posts.Some?
    && (v.queued.Some? ==> v.queued == v.kind && v.task.None?)
    && (v.task.Some? ==> v.task == v.kind)
    && (v.writing ==> v.kind.value.Rw? && v.queued.None? && !v.late)
    && (v.dialing ==> v.kind.value.Connect? && v.queued.None?)
    && (v.late ==> v.kind.value.Rw? && v.queued.None? && v.task.None?)
    && (v.doubled ==> v.late)
    && v.posts.value == (if v.queued.Some? || v.task.Some? then 0 else if v.doubled then 2 else 1)
    && (v.timer ==> v.task.Some? || v.late)
  }

  ghost predicate TaskOk(s: Client, id: TaskId) {
    if id < s.issued then ViewOk(Look(s, id)) else Look(s, id) == Unknown
  }

  ghost predicate TasksOk(s: Client) {
    && (forall id: TaskId {:trigger TaskOk(s, id)} :: TaskOk(s, id))
    && Quiet(s)
  }

  /** After a shutdown no task is pending and no connection is left. */
  ghost predicate Quiet(s: Client) { !s.running ==> s.tasks == map[] && s.conns == map[] }

  ghost function FinishedView(v: View): View {
    v.(task := None, timer := false, posts := if v.posts.Some? then Some(v.posts.value + 1) else None)
  }

  lemma FinishLook(s: Client, ids: set<TaskId>, id: TaskId)
    ensures Look(FinishAll(s, ids), id) == if id in ids then FinishedView(Look(s, id)) else Look(s, id)
  {
  }

  lemma SubmitTask(s: Client, t: Task, id: TaskId)
    requires TaskOk(s, id)
    ensures TaskOk(SubmitStep(s, t), id)
  {
    assert id != s.issued ==> Look(SubmitStep(s, t), id) == Look(s, id);
  }

  lemma RwTask(s: Client, i: TaskId, conn: ConnId, timeout: nat, outcome: Outcome, id: TaskId)
    requires TaskOk(s, id) && i in s.queued && s.queued[i] == Rw(conn, timeout)
    ensures TaskOk(RwStep(s.(queued := s.queued - {i}), i, conn, timeout, outcome), id)
  {
    var s1 := s.(queued := s.queued - {i}, tasks := s.tasks[i := Rw(conn, timeout)]);
    FinishLook(s1, {i}, id);
    var v := Look(s, id);
    assert Look(s1, id) == if id == i then v.(queued := None, task := Some(Rw(conn, timeout))) else v;
  }

  lemma ConnectTask(s: Client, i: TaskId, ip: string, timeout: nat, outcome: Outcome, id: TaskId)
    requires TaskOk(s, id) && i in s.queued && s.queued[i] == Connect(ip, timeout)
    ensures TaskOk(ConnectStep(s.(queued := s.queued - {i}), i, ip, timeout, outcome), id)
  {
    var s1, v := s.(queued := s.queued - {i}, tasks := s.tasks[i := Connect(ip, timeout)]), Look(s, id);
    var v1 := if id == i then v.(queued := None, task := Some(Connect(ip, timeout))) else v;
    assert Look(s1, id) == v1;
    FinishLook(s1, {i}, id);
    FinishLook(Open(s1, ip, true), {i}, id);
    assert Look(Open(s1, ip, true), id) == v1 && Look(Open(s1, ip, false), id) == v1;
    DialLook(Open(s1, ip, false), i, s1.created, timeout, id);
  }

  lemma DialLook(s: Client, i: TaskId, h: HandleId, timeout: nat, id: TaskId)
    ensures var v := Look(s, id);
      Look(Dial(s, i, h, timeout), id) == if id == i then v.(dialing := true, timer := v.timer || timeout > 0) else v
  {
  }

  lemma NotReadyTask(s: Client, i: TaskId, id: TaskId)
    requires TaskOk(s, id) && i in s.queued
    ensures TaskOk(Finish(s.(queued := s.queued - {i}), i), id)
  {
    FinishLook(s.(queued := s.queued - {i}), {i}, id);
  }

  ghost function WrittenView(v: View, ok: bool, timed: bool): View {
    var gone := v.task.None?;
    var v1 := v.(writing := false, late := v.late || gone, doubled := v.doubled || (gone && !ok));
    if !ok then FinishedView(v1) else v1.(timer := v1.timer || timed)
  }

  lemma WrittenOk(v: View, ok: bool, timed: bool)
    requires ViewOk(v) && v.writing
    ensures ViewOk(WrittenView(v, ok, timed))
  {
  }

  lemma WriteTask(s: Client, i: TaskId, ok: bool, id: TaskId)
    requires TaskOk(s, id) && i in s.writes
    ensures TaskOk(WriteStep(s, i, ok), id)
  {
    var gone, v := i !in s.tasks, Look(s, id);
    var s1 := s.(writes := s.writes - {i}, hist := NoteLate(s.hist, i, gone, ok));
    NoteLook(s, i, gone, ok, id);
    FinishLook(s1, {i}, id);
    assert Look(s1.(timers := s1.timers[i := None]), id) ==
      if id == i then Look(s1, id).(timer := true) else Look(s1, id);
    if id == i {
      WrittenOk(v, ok, s.writes[i] > 0);
      assert Look(WriteStep(s, i, ok), id) == WrittenView(v, ok, s.writes[i] > 0);
    } else {
      assert Look(WriteStep(s, i, ok), id) == v;
    }
  }

  lemma NoteLook(s: Client, i: TaskId, gone: bool, ok: bool, id: TaskId)
    ensures var v := Look(s, id);
      Look(s.(writes := s.writes - {i}, hist := NoteLate(s.hist, i, gone, ok)), id) ==
        if id != i then v
        else v.(writing := false, late := v.late || gone, doubled := v.doubled || (gone && !ok))
  {
  }

  /** What write_cb does for its task: an error takes it out of both tables and posts it, even if it
      is no longer there; success starts the timer of a request with a timeout.  No other task is
      touched. */
  lemma WriteMeans(s: Client, i: TaskId, ok: bool, id: TaskId)
    requires i in s.writes && i in s.hist.posts
    ensures var s' := WriteStep(s, i, ok);
      && (id != i ==> Look(s', id) == Look(s, id))
      && i !in s'.writes && i in s'.hist.posts && s'.hist.posts[i] == s.hist.posts[i] + (if ok then 0 else 1)
      && (i in s'.tasks <==> i in s.tasks && ok)
      && (i in s'.timers <==> ok && (i in s.timers || s.writes[i] > 0))
  {
    NoteLook(s, i, i !in s.tasks, ok, id);
    FinishLook(s.(writes := s.writes - {i}, hist := NoteLate(s.hist, i, i !in s.tasks, ok)), {i}, id);
  }

  /** What timer_cb does for its task: it leaves both tables, and is posted exactly if it was still in
      the task table.  No other task is touched. */
  lemma TimeoutMeans(s: Client, i: TaskId, id: TaskId)
    requires i in s.timers
    ensures var v := Look(s, id);
      Look(TimeoutStep(s, i), id) ==
        if id != i then v else if i in s.tasks then FinishedView(v) else v.(timer := false)
  {
    var s1 := s.(timers := s.timers - {i});
    assert Look(s1, id) == if id == i then Look(s, id).(timer := false) else Look(s, id);
    FinishLook(s1, {i}, id);
    if s.timers[i].Some? { CloseLook(if i in s1.tasks then Finish(s1, i) else s1, s.timers[i].value, id); }
  }

  /** A submission is a new task that waits, unposted. */
  lemma SubmitMeans(s: Client, t: Task, id: TaskId)
    requires TaskOk(s, s.issued)
    ensures var s' := SubmitStep(s, t);
      && Look(s, s.issued) == Unknown && Waiting(s', s.issued) && Look(s', s.issued).posts == Some(0)
      && (id != s.issued ==> Look(s', id) == Look(s, id))
  {
  }

  lemma TimeoutTask(s: Client, i: TaskId, id: TaskId)
    requires TaskOk(s, id) && i in s.timers
    ensures TaskOk(TimeoutStep(s, i), id)
  {
    TimeoutMeans(s, i, id);
  }

  lemma CloseLook(s: Client, h: HandleId, id: TaskId)
    ensures Look(Close(s, h), id) == Look(s, id)
  {
  }

  lemma UndialLook(s: Client, i: TaskId, id: TaskId)
    ensures var v := Look(s, id);
      && Look(s.(connects := s.connects - {i}), id) == (if id == i then v.(dialing := false) else v)
      && Look(s.(connects := s.connects - {i}, tasks := s.tasks - {i}, timers := s.timers - {i}), id)
         == (if id == i then v.(dialing := false, task := None, timer := false) else v)
  {
  }

  lemma ConnectedLook(s: Client, i: TaskId, ok: bool, id: TaskId)
    requires i in s.connects && s.connects[i] in s.handles && i in s.tasks
    ensures var v := Look(s, id);
      Look(ConnectedStep(s, i, ok), id) ==
        if id == i then FinishedView(v.(dialing := false, task := None, timer := false)) else v
  {
    var h := s.connects[i];
    var s1 := s.(connects := s.connects - {i}, tasks := s.tasks - {i}, timers := s.timers - {i});
    UndialLook(s, i, id);
    CloseLook(s1, h, id);
    EstablishLook(s1, h, id);
    FinishLook(if ok then Establish(s1, h) else Close(s1, h), {i}, id);
  }

  lemma ConnectedTask(s: Client, i: TaskId, ok: bool, id: TaskId)
    requires TaskOk(s, id) && i in s.connects && s.connects[i] in s.handles
    ensures TaskOk(ConnectedStep(s, i, ok), id)
  {
    if i !in s.tasks { UndialLook(s, i, id); } else { ConnectedLook(s, i, ok, id); }
  }

  lemma EstablishLook(s: Client, h: HandleId, id: TaskId)
    requires h in s.handles
    ensures Look(Establish(s, h), id) == Look(s, id)
  {
  }

  lemma ReadErrorTask(s: Client, h: HandleId, id: TaskId)
    requires TaskOk(s, id) && h in s.handles
    ensures TaskOk(ReadErrorStep(s, h), id)
  {
    var c := s.handles[h].connId;
    var s1 := Drop(Close(s, h), h, c);
    CloseLook(s, h, id);
    DropLook(Close(s, h), h, c, id);
    FinishLook(s1, RwOn(s.tasks, c), id);
  }

  lemma ResponseTask(s: Client, i: TaskId, id: TaskId)
    requires TaskOk(s, id)
    ensures TaskOk(ResponseStep(s, i), id)
  {
    FinishLook(s, {i}, id);
    assert i !in s.tasks ==>
      Look(ResponseStep(s, i), id) == if id == i then Look(s, id).(timer := false) else Look(s, id);
  }

  lemma ShutdownTask(s: Client, id: TaskId)
    requires TaskOk(s, id)
    ensures TaskOk(ShutdownStep(s), id)
  {
    assert Look(Halt(s), id) == Look(s, id).(timer := false);
    FinishLook(Halt(s), s.tasks.Keys, id);
  }

  lemma AsyncTask(s: Client, i: TaskId, o: Outcome, id: TaskId)
    requires TaskOk(s, id) && i in s.queued
    ensures TaskOk(AsyncStep(s, i, o), id)
  {
    if !s.running { NotReadyTask(s, i, id); }
    else if s.queued[i].Rw? { RwTask(s, i, s.queued[i].conn, s.queued[i].timeout, o, id); }
    else { ConnectTask(s, i, s.queued[i].ip, s.queued[i].timeout, o, id); }
  }

  lemma ClosedTask(s: Client, h: HandleId, id: TaskId)
    requires TaskOk(s, id) && h in s.handles
    ensures TaskOk(ClosedStep(s, h), id)
  {
    DropLook(s, h, s.handles[h].connId, id);
    var s1 := if s.handles[h].connId in s.conns then Drop(s, h, s.handles[h].connId) else s;
    assert Look(Forget(s1, h), id) == Look(s1, id);
  }

  lemma DropLook(s: Client, h: HandleId, c: ConnId, id: TaskId)
    ensures Look(Drop(s, h, c), id) == Look(s, id)
  {
  }

  lemma TaskKept(s: Client, e: Event, id: TaskId)
    requires TaskOk(s, id) && Enabled(s, e)
    ensures TaskOk(Apply(s, e), id)
  {
    match e
    case Submit(t) => SubmitTask(s, t, id);
    case Async(i, o) => AsyncTask(s, i, o, id);
    case WriteDone(i, ok) => WriteTask(s, i, ok, id);
    case Timeout(i) => TimeoutTask(s, i, id);
    case ConnectDone(i, ok) => ConnectedTask(s, i, ok, id);
    case ReadError(h) => ReadErrorTask(s, h, id);
    case Response(i) => ResponseTask(s, i, id);
    case Closed(h) => ClosedTask(s, h, id);
    case Shutdown => ShutdownTask(s, id);
  }

  lemma FinishQuiet(s: Client, ids: set<TaskId>)
    requires Quiet(s)
    ensures Quiet(FinishAll(s, ids))
  {
  }

  lemma AsyncQuiet(s: Client, i: TaskId, o: Outcome)
    requires Quiet(s) && i in s.queued
    ensures Quiet(AsyncStep(s, i, o))
  {
    var s1 := s.(queued := s.queued - {i});
    FinishQuiet(s1, {i});
    if s.running {
      assert AsyncStep(s, i, o).running by {
        match s.queued[i]
        case Rw(conn, timeout) => assert RwStep(s1, i, conn, timeout, o).running;
        case Connect(ip, timeout) => assert ConnectStep(s1, i, ip, timeout, o).running;
      }
    }
  }

  lemma TimeoutQuiet(s: Client, i: TaskId)
    requires Quiet(s) && i in s.timers
    ensures Quiet(TimeoutStep(s, i))
  {
    FinishQuiet(s.(timers := s.timers - {i}), {i});
  }

  lemma ConnectedQuiet(s: Client, i: TaskId, ok: bool)
    requires Quiet(s) && i in s.connects && s.connects[i] in s.handles
    ensures Quiet(ConnectedStep(s, i, ok))
  {
  }

  lemma WriteQuiet(s: Client, i: TaskId, ok: bool)
    requires Quiet(s) && i in s.writes
    ensures Quiet(WriteStep(s, i, ok))
  {
  }

  lemma ReadErrorQuiet(s: Client, h: HandleId)
    requires Quiet(s) && h in s.handles
    ensures Quiet(ReadErrorStep(s, h))
  {
  }

  lemma QuietKept(s: Client, e: Event)
    requires Enabled(s, e) && Quiet(s)
    ensures Quiet(Apply(s, e))
  {
    match e
    case Submit(t) =>
    case Async(i, o) => AsyncQuiet(s, i, o);
    case WriteDone(i, ok) => WriteQuiet(s, i, ok);
    case Timeout(i) => TimeoutQuiet(s, i);
    case ConnectDone(i, ok) => ConnectedQuiet(s, i, ok);
    case ReadError(h) => ReadErrorQuiet(s, h);
    case Response(i) => FinishQuiet(s, {i});
    case Closed(h) =>
    case Shutdown =>
  }

  /** Every event keeps the task bookkeeping. */
  lemma TasksKept(s: Client, e: Event)
    requires TasksOk(s) && Enabled(s, e)
    ensures TasksOk(Apply(s, e))
  {
    var s' := Apply(s, e);
    forall id: TaskId {:trigger TaskOk(s', id)} ensures TaskOk(s', id) {
      assert TaskOk(s, id);
      TaskKept(s, e, id);
    }
    QuietKept(s, e);
  }

  // ----- what holds over every run

  lemma {:induction false} RunKeepsTasks(s: Client, es: seq<Event>)
    requires TasksOk(s) && IsRun(s, es)
    ensures TasksOk(Final(s, es))
    decreases |es|
  {
    if es != [] {
      TasksKept(s, es[0]);
      RunKeepsTasks(Apply(s, es[0]), es[1..]);
    }
  }

  lemma InitTasks()
    ensures TasksOk(Init)
  {
    forall id: TaskId {:trigger TaskOk(Init, id)} ensures TaskOk(Init, id) {
      assert Look(Init, id) == Unknown;
    }
  }

  /** Whatever the order of connect callback, timeout, immediate failure, not-ready and shutdown, a
      CONNECT task waits with its semaphore unposted or has been posted exactly once. */
  lemma ConnectPostedOnce(es: seq<Event>, id: TaskId)
    requires IsRun(Init, es) && id in Final(Init, es).hist.kind && Final(Init, es).hist.kind[id].Connect?
    ensures var s := Final(Init, es);
      id in s.hist.posts && s.hist.posts[id] == if Waiting(s, id) then 0 else 1
  {
    InitTasks();
    RunKeepsTasks(Init, es);
    assert TaskOk(Final(Init, es), id);
  }

  /** An RW task is posted twice exactly when its write completion reports an error after the
      task was already finished by a response, timeout, connection loss or shutdown; otherwise it
      is posted once, when it stops waiting. */
  lemma RwPosted(es: seq<Event>, id: TaskId)
    requires IsRun(Init, es) && id in Final(Init, es).hist.kind && Final(Init, es).hist.kind[id].Rw?
    ensures var s := Final(Init, es);
      && id in s.hist.posts
      && s.hist.posts[id] == (if Waiting(s, id) then 0 else if id in s.hist.doubled then 2 else 1)
      && s.hist.doubled <= s.hist.late
  {
    InitTasks();
    RunKeepsTasks(Init, es);
    var s := Final(Init, es);
    assert TaskOk(s, id);
    forall i | i in s.hist.doubled ensures i in s.hist.late { assert TaskOk(s, i); }
  }

  /** Timers belong to tasks in the table, except those started by a late write completion. */
  lemma TimersBelong(es: seq<Event>)
    requires IsRun(Init, es)
    ensures var s := Final(Init, es); s.timers.Keys <= s.tasks.Keys + s.hist.late
  {
    InitTasks();
    RunKeepsTasks(Init, es);
    var s := Final(Init, es);
    forall i | i in s.timers ensures i in s.tasks.Keys + s.hist.late { assert TaskOk(s, i); }
  }

  /** A shutdown empties the three tables and posts every task that was pending, once; no later
      event puts a task or a connection back. */
  lemma ShutdownNotifies(es: seq<Event>, rest: seq<Event>, id: TaskId)
    requires IsRun(Init, es) && Enabled(Final(Init, es), Shutdown)
    requires IsRun(ShutdownStep(Final(Init, es)), rest)
    ensures var s, s' := Final(Init, es), ShutdownStep(Final(Init, es));
      && s'.tasks == map[] && s'.timers == map[] && s'.conns == map[]
      && (id in s.tasks ==>
            id in s.hist.posts && s.hist.posts[id] == 0 && id in s'.hist.posts && s'.hist.posts[id] == 1)
    ensures var z := Final(ShutdownStep(Final(Init, es)), rest);
      !z.running && z.tasks == map[] && z.conns == map[]
  {
    InitTasks();
    RunKeepsTasks(Init, es);
    var s := Final(Init, es);
    TasksKept(s, Shutdown);
    RunKeepsTasks(ShutdownStep(s), rest);
    StaysDown(ShutdownStep(s), rest);
    assert TaskOk(s, id);
    FinishLook(Halt(s), s.tasks.Keys, id);
  }

  lemma FinishRuns(s: Client, ids: set<TaskId>)
    ensures FinishAll(s, ids).running == s.running
  {
  }

  lemma DownKept(s: Client, e: Event)
    requires !s.running && Enabled(s, e)
    ensures !Apply(s, e).running
  {
    match e
    case Submit(t) =>
    case Async(i, o) => FinishRuns(s.(queued := s.queued - {i}), {i});
    case WriteDone(i, ok) =>
    case Timeout(i) =>
    case ConnectDone(i, ok) =>
    case ReadError(h) =>
    case Response(i) =>
    case Closed(h) =>
    case Shutdown =>
  }

  lemma {:induction false} StaysDown(s: Client, es: seq<Event>)
    requires !s.running && IsRun(s, es)
    ensures !Final(s, es).running
    decreases |es|
  {
    if es != [] {
      DownKept(s, es[0]);
      StaysDown(Apply(s, es[0]), es[1..]);
    }
  }
}
