/** The client loop as an object: the tables of Communication/core/comm_res.cpp and the callbacks
    of Communication/core/comm_core.cpp.  Each callback carries out one event of ClientCore. */
module ClientLoop {
  import opened Common
  import opened GenId
  import opened ClientCore

  import opened ClientConns

  lemma FinishMore(s: Client, ids: set<TaskId>, id: TaskId)
    requires id !in ids
    ensures Finish(FinishAll(s, ids), id) == FinishAll(s, ids + {id})
  {
    assert s.tasks - ids - {id} == s.tasks - (ids + {id});
    assert s.timers - ids - {id} == s.timers - (ids + {id});
    assert Posted(Posted(s.hist.posts, ids), {id}) == Posted(s.hist.posts, ids + {id});
  }

  lemma FinishNone(s: Client)
    ensures FinishAll(s, {}) == s
  {
    assert s.tasks - {} == s.tasks && s.timers - {} == s.timers;
    assert Posted(s.hist.posts, {}) == s.hist.posts;
  }

  class Loop {
    var running: bool
    var tasks: map<TaskId, Task>
    var timers: map<TaskId, Option<HandleId>>
    var conns: map<ConnId, HandleId>
    var handles: map<HandleId, Tcp>
    var queued: map<TaskId, Task>
    var writes: map<TaskId, nat>
    var connects: map<TaskId, HandleId>
    var issued: nat
    var created: nat
    const ids: GenConnID
    ghost var allocs: nat
    ghost var hist: History

    ghost function State(): Client
      reads this
    {
      Client(running, tasks, timers, conns, handles, queued, writes, connects, issued, created, allocs, hist)
    }

    ghost predicate Valid()
      reads this, ids
    {
      Sound(State()) && ids.counter == After(allocs)
    }

    constructor ()
      ensures Valid() && State() == Init && fresh(ids)
    {
      ids := new GenConnID();
      running, tasks, timers, conns, handles := true, map[], map[], map[], map[];
      queued, writes, connects, issued, created := map[], map[], map[], 0, 0;
      allocs, hist := 0, Empty;
      new;
      InitSound();
    }

    // ----- the tables

    /** cl_task_del */
    method TaskDel(id: TaskId) returns (task: Option<Task>)
      modifies this`tasks
      ensures tasks == old(tasks) - {id} && task == Get(old(tasks), id)
    {
      task := None;
      if id in tasks {
        task := Some(tasks[id]);
        tasks := tasks - {id};
      }
    }

    /** cl_timer_del */
    method TimerDel(id: TaskId) returns (timer: Option<Option<HandleId>>)
      modifies this`timers
      ensures timers == old(timers) - {id} && timer == Get(old(timers), id)
    {
      timer := None;
      if id in timers {
        timer := Some(timers[id]);
        timers := timers - {id};
      }
    }

    /** cl_conn_add */
    method ConnAdd(c: ConnId, h: HandleId)
      modifies this`conns
      ensures conns == if c in old(conns) then old(conns) else old(conns)[c := h]
    {
      if c !in conns {
        conns := conns[c := h];
      }
    }

    /** cl_conn_del */
    method ConnDel(c: ConnId) returns (found: bool)
      modifies this`conns
      ensures conns == old(conns) - {c} && found == (c in old(conns))
    {
      found := c in conns;
      if found {
        conns := conns - {c};
      }
    }

    /** cl_conn_find2 */
    method ConnFind2(ip: string) returns (found: bool)
      requires forall c :: c in conns ==> conns[c] in handles
      ensures found == Connected(State(), ip)
    {
      var left := conns.Keys;
      while left != {}
        invariant left <= conns.Keys
        invariant forall c :: c in conns && c !in left ==> handles[conns[c]].ip != ip
        decreases |left|
      {
        var c :| c in left;
        if handles[conns[c]].ip == ip {
          return true;
        }
        left := left - {c};
      }
      return false;
    }

    /** cl_task_del_by_connId */
    method TaskDelByConn(c: ConnId) returns (list: seq<TaskId>)
      modifies this`tasks
      ensures tasks == old(tasks) - RwOn(old(tasks), c)
      ensures (forall i :: i in list <==> i in RwOn(old(tasks), c)) && NoRepeats(list)
    {
      list := [];
      ghost var all := tasks;
      var left := tasks.Keys;
      while left != {}
        invariant left <= tasks.Keys && tasks == all - (set i | i in list)
        invariant forall i :: i in list <==> i in RwOn(all, c) && i !in left
        invariant NoRepeats(list)
        decreases |left|
      {
        var i :| i in left;
        left := left - {i};
        if tasks[i].Rw? && tasks[i].conn == c {
          list := list + [i];
          tasks := tasks - {i};
        }
      }
      assert (set i | i in list) == RwOn(all, c);
    }

    /** _safe_uv_close on a tcp handle */
    method CloseHandle(h: HandleId)
      modifies this`handles
      ensures handles == Shut(old(handles), {h})
    {
      if h in handles {
        handles := handles[h := handles[h].(closing := true, reading := false)];
      }
    }

    // ----- the callbacks

    /** _cl_finish_task */
    method FinishTask(id: TaskId)
      modifies this`tasks, this`timers, this`hist
      ensures State() == Finish(old(State()), id)
    {
      var task := TaskDel(id);
      var td := TimerDel(id);
      hist := hist.(posts := Posted(hist.posts, {id}));
    }

    /** async_send and async_conn hand a task to the loop. */
    method SubmitTask(task: Task) returns (id: TaskId)
      modifies this`issued, this`queued, this`hist
      ensures State() == SubmitStep(old(State()), task) && id == old(issued)
    {
      id := issued;
      issued := issued + 1;
      queued := queued[id := task];
      hist := hist.(kind := hist.kind[id := task], posts := hist.posts[id := 0]);
    }

    /** async_cb */
    method AsyncCb(id: TaskId, outcome: Outcome)
      requires id in queued && forall c :: c in conns ==> conns[c] in handles
      modifies this`queued, this`tasks, this`timers, this`hist, this`writes, this`handles, this`created, this`connects
      ensures State() == AsyncStep(old(State()), id, outcome)
    {
      var task := queued[id];
      queued := queued - {id};
      if !running {
        FinishTask(id);
        return;
      }
      match task
      case Rw(conn, timeout) => DoRw(id, conn, timeout, outcome);
      case Connect(ip, timeout) => DoConnect(id, ip, timeout, outcome);
    }

    method DoRw(id: TaskId, conn: ConnId, timeout: nat, outcome: Outcome)
      modifies this`tasks, this`timers, this`hist, this`writes
      ensures State() == RwStep(old(State()), id, conn, timeout, outcome)
    {
      tasks := tasks[id := Rw(conn, timeout)];
      if conn !in conns || outcome != Accepted {
        FinishTask(id);
      } else {
        writes := writes[id := timeout];
      }
    }

    /** _do_connect */
    method DoConnect(id: TaskId, ip: string, timeout: nat, outcome: Outcome)
      requires forall c :: c in conns ==> conns[c] in handles
      modifies this`tasks, this`timers, this`hist, this`handles, this`created, this`connects
      ensures State() == ConnectStep(old(State()), id, ip, timeout, outcome)
    {
      tasks := tasks[id := Connect(ip, timeout)];
      var exist := ConnFind2(ip);
      if exist || outcome == InitFails {
        FinishTask(id);
        return;
      }
      var h := created;
      created := created + 1;
      handles := handles[h := Tcp(ip, INVALID_CONNID, false, outcome == RequestFails)];
      if outcome == RequestFails {
        FinishTask(id);
      } else {
        connects := connects[id := h];
        if timeout > 0 {
          timers := timers[id := Some(h)];
        }
      }
    }

    /** One callback or submission: every event of the state machine, carried out on the tables. */
    method Handle(e: Event)
      requires Valid() && Enabled(State(), e)
      modifies this, ids
      ensures Valid() && State() == Apply(old(State()), e)
    {
      SoundKept(State(), e);
      EntriesKnown();
      Dispatch(e);
    }

    method Dispatch(e: Event)
      requires Enabled(State(), e) && ids.counter == After(allocs) && forall c :: c in conns ==> conns[c] in handles
      modifies this, ids
      ensures State() == Apply(old(State()), e) && ids.counter == After(allocs)
    {
      match e
      case Submit(task) => var id := SubmitTask(task);
      case Async(id, outcome) => AsyncCb(id, outcome);
      case WriteDone(id, ok) => WriteCb(id, ok);
      case Timeout(id) => TimerCb(id);
      case ConnectDone(id, ok) => ConnectCb(id, ok);
      case ReadError(h) => ReadErrorCb(h);
      case Response(id) => ResponseCb(id);
      case Closed(h) => CloseCb(h);
      case Shutdown => ShutdownCb();
    }

    lemma EntriesKnown()
      requires Valid()
      ensures forall c :: c in conns ==> conns[c] in handles
    {
      forall c | c in conns ensures conns[c] in handles { assert EntryOk(State(), c); }
    }

    /** write_cb for an RW request */
    method WriteCb(id: TaskId, ok: bool)
      requires id in writes
      modifies this`writes, this`tasks, this`timers, this`hist
      ensures State() == WriteStep(old(State()), id, ok)
    {
      var timeout := writes[id];
      writes := writes - {id};
      hist := NoteLate(hist, id, id !in tasks, ok);
      if !ok {
        FinishTask(id);
      } else if timeout > 0 {
        timers := timers[id := None];
      }
    }

    /** timer_cb */
    method TimerCb(id: TaskId)
      requires id in timers
      modifies this`tasks, this`timers, this`hist, this`handles
      ensures State() == TimeoutStep(old(State()), id)
    {
      var td := timers[id];
      var timer := TimerDel(id);
      if id in tasks {
        FinishTask(id);
      }
      if td.Some? {
        CloseHandle(td.value);
      }
    }

    /** connect_cb */
    method ConnectCb(id: TaskId, ok: bool)
      requires id in connects && connects[id] in handles && ids.counter == After(allocs)
      modifies this`connects, this`tasks, this`timers, this`hist, this`handles, this`conns, this`allocs, ids
      ensures State() == ConnectedStep(old(State()), id, ok) && ids.counter == After(allocs)
    {
      var h := connects[id];
      connects := connects - {id};
      var task := TaskDel(id);
      if task.None? {
        assert tasks == old(tasks);
        return;
      }
      var td := TimerDel(id);
      Settle(h, id, ok);
    }

    /** The connection is closed or established, and the task is finished. */
    method Settle(h: HandleId, id: TaskId, ok: bool)
      requires h in handles && ids.counter == After(allocs)
      modifies this`tasks, this`timers, this`hist, this`handles, this`conns, this`allocs, ids
      ensures State() == Finish(if ok then Establish(old(State()), h) else Close(old(State()), h), id)
      ensures ids.counter == After(allocs)
    {
      if !ok {
        CloseHandle(h);
      } else {
        SetUp(h);
      }
      FinishTask(id);
    }

    method SetUpAs(h: HandleId, c: ConnId)
      requires h in handles && allocs > 0
      modifies this`handles, this`conns, this`hist
      ensures State() == EstablishAs(old(State()).(allocs := allocs - 1), h, c)
    {
      hist := hist.(ups := Bump(hist.ups, h), born := hist.born[h := allocs - 1],
                    clash := hist.clash || InUse(handles, c));
      handles := handles[h := handles[h].(connId := c, reading := true)];
      ConnAdd(c, h);
    }

    method SetUp(h: HandleId)
      requires h in handles && ids.counter == After(allocs)
      modifies this`allocs, this`handles, this`conns, this`hist, ids
      ensures State() == Establish(old(State()), h) && ids.counter == After(allocs)
    {
      var c := ids.ApplyId();
      allocs := allocs + 1;
      SetUpAs(h, c);
    }

    /** read_cb with a negative length */
    method ReadErrorCb(h: HandleId)
      requires h in handles
      modifies this`tasks, this`timers, this`hist, this`handles, this`conns
      ensures State() == ReadErrorStep(old(State()), h)
    {
      ghost var all := tasks;
      var c := handles[h].connId;
      CloseHandle(h);
      var found := ConnDel(c);
      hist := hist.(downs := Bump(hist.downs, h));
      ghost var s := State();
      var list := TaskDelByConn(c);
      FinishList(list, s, RwOn(all, c));
    }

    /** Finishes tasks that are already out of the task table. */
    method FinishList(list: seq<TaskId>, ghost s: Client, ghost ids: set<TaskId>)
      requires NoRepeats(list) && (forall i :: i in list <==> i in ids) && State() == s.(tasks := s.tasks - ids)
      modifies this`tasks, this`timers, this`hist
      ensures State() == FinishAll(s, ids)
    {
      ghost var done: set<TaskId> := {};
      FinishNone(State());
      var k := 0;
      ghost var s0 := State();
      while k < |list|
        invariant 0 <= k <= |list| && (forall i :: i in done <==> i in list[..k])
        invariant State() == FinishAll(s0, done)
      {
        assert list[k] !in done;
        FinishMore(s0, done, list[k]);
        FinishTask(list[k]);
        done := done + {list[k]};
        k := k + 1;
      }
      assert done == ids;
      assert s.tasks - ids - ids == s.tasks - ids;
    }

    /** A common package in _read_content_process */
    method ResponseCb(id: TaskId)
      modifies this`tasks, this`timers, this`hist
      ensures State() == ResponseStep(old(State()), id)
    {
      ghost var s := State();
      var task := TaskDel(id);
      var td := TimerDel(id);
      if task.Some? {
        FinishTask(id);
        assert s.tasks - {id} - {id} == s.tasks - {id};
        assert s.timers - {id} - {id} == s.timers - {id};
      } else {
        assert tasks == s.tasks;
      }
    }

    /** close_cb */
    method CloseCb(h: HandleId)
      requires h in handles
      modifies this`handles, this`conns, this`hist
      ensures State() == ClosedStep(old(State()), h)
    {
      var c := handles[h].connId;
      var found := ConnDel(c);
      if found {
        hist := hist.(downs := Bump(hist.downs, h));
      } else {
        assert conns == old(conns);
      }
      handles := handles - {h};
    }

    /** _client_shutdown */
    method ShutdownCb()
      modifies this`running, this`tasks, this`timers, this`hist, this`handles, this`conns
      ensures State() == ShutdownStep(old(State()))
    {
      running := false;
      CloseAll();
      timers, conns := map[], map[];
      FinishEvery();
    }

    /** Every task in the table is finished. */
    method FinishEvery()
      modifies this`tasks, this`timers, this`hist
      ensures State() == FinishAll(old(State()), old(tasks).Keys)
    {
      ghost var s := State();
      var left := tasks.Keys;
      ghost var done: set<TaskId> := {};
      FinishNone(s);
      while left != {}
        invariant left <= s.tasks.Keys && done == s.tasks.Keys - left
        invariant State() == FinishAll(s, done)
        decreases |left|
      {
        var i :| i in left;
        FinishMore(s, done, i);
        FinishTask(i);
        left := left - {i};
        done := done + {i};
      }
      assert done == s.tasks.Keys;
    }

    /** The loops over connections and timers in _client_shutdown. */
    method CloseAll()
      modifies this`handles
      ensures handles == Shut(old(handles), ShutdownHandles(old(State())))
    {
      ghost var before := handles;
      ghost var hs: set<HandleId> := {};
      assert handles == Shut(before, hs);
      var cs := conns.Keys;
      while cs != {}
        invariant cs <= conns.Keys && handles == Shut(before, hs)
        invariant hs == set c | c in conns && c !in cs :: conns[c]
        decreases |cs|
      {
        var c :| c in cs;
        CloseHandle(conns[c]);
        ShutMore(before, hs, conns[c]);
        hs := hs + {conns[c]};
        cs := cs - {c};
      }
      ghost var first := hs;
      assert first == set c | c in conns :: conns[c];
      var ts := timers.Keys;
      while ts != {}
        invariant ts <= timers.Keys && handles == Shut(before, hs)
        invariant hs == first + set i | i in timers && i !in ts && timers[i].Some? :: timers[i].value
        decreases |ts|
      {
        var i :| i in ts;
        if timers[i].Some? {
          CloseHandle(timers[i].value);
          ShutMore(before, hs, timers[i].value);
          hs := hs + {timers[i].value};
        }
        ts := ts - {i};
      }
      assert hs == ShutdownHandles(State().(handles := before));
    }
  }

  lemma ShutMore(handles: map<HandleId, Tcp>, hs: set<HandleId>, h: HandleId)
    ensures Shut(Shut(handles, hs), {h}) == Shut(handles, hs + {h})
  {
  }

  ghost predicate NoRepeats(s: seq<TaskId>) {
    forall i, j :: 0 <= i < j < |s| ==> s[i] != s[j]
  }
}
