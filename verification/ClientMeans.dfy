/** What every callback of the client loop does, task by task and connection by connection, for any
    state: the events of ClientCore stated without its building blocks. */
module ClientMeans {
  import opened Common
  import opened GenId
  import opened ClientCore

  import opened ClientConns

  /** All that the state says about connections. */
  datatype Wires = Wires(handles: map<HandleId, Tcp>, conns: map<ConnId, HandleId>,
                         ups: map<HandleId, nat>, downs: map<HandleId, nat>, created: nat, allocs: nat)

  ghost function WiresOf(s: Client): Wires {
    Wires(s.handles, s.conns, s.hist.ups, s.hist.downs, s.created, s.allocs)
  }

  /** What is left for libuv to complete. */
  ghost predicate SameRequests(s: Client, s': Client) {
    s'.queued == s.queued && s'.writes == s.writes && s'.connects == s.connects
  }

  ghost predicate Counted(m: map<HandleId, nat>, m': map<HandleId, nat>, h: HandleId) {
    forall k :: Count(m', k) == Count(m, k) + (if k == h then 1 else 0)
  }

  lemma BumpCounts(m: map<HandleId, nat>, h: HandleId)
    ensures Counted(m, Bump(m, h), h)
  {
  }

  lemma ShutOne(handles: map<HandleId, Tcp>, h: HandleId)
    ensures Shut(handles, {h}) ==
      if h in handles then handles[h := handles[h].(closing := true, reading := false)] else handles
  {
  }

  ghost function TakenView(v: View, t: Task): View { v.(queued := None, task := Some(t)) }

  lemma TakenLook(s: Client, i: TaskId, t: Task, id: TaskId)
    ensures var v := Look(s, id);
      Look(s.(queued := s.queued - {i}, tasks := s.tasks[i := t]), id) == if id == i then TakenView(v, t) else v
  {
  }

  lemma OpenLook(s: Client, ip: string, closing: bool, id: TaskId)
    ensures Look(Open(s, ip, closing), id) == Look(s, id)
  {
  }

  /** A task that was taken from the queue and ends at once. */
  lemma EndedLook(s: Client, s1: Client, i: TaskId, t: Task, id: TaskId)
    requires Look(s1, id) == if id == i then TakenView(Look(s, id), t) else Look(s, id)
    ensures Look(Finish(s1, i), id) == if id == i then FinishedView(Look(s, id).(queued := None)) else Look(s, id)
  {
    FinishLook(s1, {i}, id);
  }

  lemma FinishRest(s: Client, i: TaskId, id: TaskId)
    ensures var s' := Finish(s, i);
      && WiresOf(s') == WiresOf(s) && SameRequests(s, s') && s'.running == s.running
      && (id != i ==> Get(s'.timers, id) == Get(s.timers, id))
  {
  }

  /** A submission is queued under a new id; nothing else changes. */
  lemma SubmitDoes(s: Client, t: Task, id: TaskId)
    requires Enabled(s, Submit(t)) && TaskOk(s, s.issued)
    ensures var s' := Apply(s, Submit(t));
      && s'.issued == s.issued + 1 && s'.running == s.running
      && Look(s', id) == (if id != s.issued then Look(s, id)
                          else View(Some(t), Some(0), Some(t), None, false, false, false, false, false))
      && WiresOf(s') == WiresOf(s) && s'.timers == s.timers && s'.writes == s.writes && s'.connects == s.connects
  {
    assert Look(s, s.issued) == Unknown;
  }

  /** A response takes its task out of both tables and posts it, if it is still in the task table;
      else it takes out the timer at most. */
  lemma ResponseDoes(s: Client, i: TaskId, id: TaskId)
    requires Enabled(s, Response(i))
    ensures var s', v := Apply(s, Response(i)), Look(s, id);
      && Look(s', id) == (if id != i then v else if i in s.tasks then FinishedView(v) else v.(timer := false))
      && (id != i ==> Get(s'.timers, id) == Get(s.timers, id))
      && WiresOf(s') == WiresOf(s) && SameRequests(s, s') && s'.running == s.running
  {
    FinishLook(s, {i}, id);
  }

  lemma RequestLook(s: Client, i: TaskId, o: Outcome, id: TaskId)
    requires Enabled(s, Async(i, o)) && s.queued[i].Rw?
    ensures var v, t := Look(s, id), s.queued[i];
      Look(RwStep(s.(queued := s.queued - {i}), i, t.conn, t.timeout, o), id) ==
        if id != i then v
        else if t.conn in s.conns && o.Accepted? then v.(queued := None, task := Some(t), writing := true)
        else FinishedView(v.(queued := None))
  {
    var t := s.queued[i];
    var s1 := s.(queued := s.queued - {i}, tasks := s.tasks[i := t]);
    TakenLook(s, i, t, id);
    EndedLook(s, s1, i, t, id);
  }

  /** A request is written if the loop runs, its connection is known and the write is accepted; else
      it is posted at once. */
  lemma RequestDoes(s: Client, i: TaskId, o: Outcome, id: TaskId)
    requires Enabled(s, Async(i, o)) && s.queued[i].Rw?
    ensures var s', v, t := Apply(s, Async(i, o)), Look(s, id), s.queued[i];
      var sent := s.running && t.conn in s.conns && o.Accepted?;
      && Look(s', id) == (if id != i then v
                          else if sent then v.(queued := None, task := Some(t), writing := true)
                          else FinishedView(v.(queued := None)))
      && s'.writes == (if sent then s.writes[i := t.timeout] else s.writes)
      && (id != i ==> Get(s'.timers, id) == Get(s.timers, id))
      && WiresOf(s') == WiresOf(s) && s'.connects == s.connects && s'.running == s.running
  {
    var t := s.queued[i];
    if s.running {
      RequestLook(s, i, o, id);
      FinishRest(s.(queued := s.queued - {i}, tasks := s.tasks[i := t]), i, id);
    } else {
      FinishLook(s.(queued := s.queued - {i}), {i}, id);
      FinishRest(s.(queued := s.queued - {i}), i, id);
    }
  }

  ghost predicate HasIp(s: Client, ip: string) {
    exists c :: c in s.conns && s.conns[c] in s.handles && s.handles[s.conns[c]].ip == ip
  }

  /** One task in the course of a connect. */
  lemma ConnectLook(s: Client, i: TaskId, o: Outcome, id: TaskId)
    requires Enabled(s, Async(i, o)) && s.queued[i].Connect? && s.running
    ensures var v, t := Look(s, id), s.queued[i];
      Look(ConnectStep(s.(queued := s.queued - {i}), i, t.ip, t.timeout, o), id) ==
        if id != i then v
        else if !HasIp(s, t.ip) && o.Accepted? then
          v.(queued := None, task := Some(t), dialing := true, timer := v.timer || t.timeout > 0)
        else FinishedView(v.(queued := None))
  {
    var t := s.queued[i];
    var s0, s1 := s.(queued := s.queued - {i}), s.(queued := s.queued - {i}, tasks := s.tasks[i := t]);
    SameIp(s, s1, t.ip);
    TakenLook(s, i, t, id);
    if HasIp(s, t.ip) || o.InitFails? {
      assert ConnectStep(s0, i, t.ip, t.timeout, o) == Finish(s1, i);
      EndedLook(s, s1, i, t, id);
    } else if o.RequestFails? {
      assert ConnectStep(s0, i, t.ip, t.timeout, o) == Finish(Open(s1, t.ip, true), i);
      OpenLook(s1, t.ip, true, id);
      EndedLook(s, Open(s1, t.ip, true), i, t, id);
    } else {
      assert ConnectStep(s0, i, t.ip, t.timeout, o) == Dial(Open(s1, t.ip, false), i, s1.created, t.timeout);
      OpenLook(s1, t.ip, false, id);
      DialLook(Open(s1, t.ip, false), i, s1.created, t.timeout, id);
    }
  }

  lemma SameIp(s: Client, s1: Client, ip: string)
    requires s1.conns == s.conns && s1.handles == s.handles
    ensures Connected(s1, ip) <==> HasIp(s, ip)
  {
  }

  /** The connections, requests and timers of the others in the course of a connect. */
  lemma ConnectWires(s: Client, i: TaskId, o: Outcome, id: TaskId)
    requires Enabled(s, Async(i, o)) && s.queued[i].Connect? && s.running
    ensures var t := s.queued[i];
      var s' := ConnectStep(s.(queued := s.queued - {i}), i, t.ip, t.timeout, o);
      var refused := HasIp(s, t.ip) || o.InitFails?;
      var dialed := !refused && o.Accepted?;
      && WiresOf(s') == (if refused then WiresOf(s)
                         else WiresOf(s).(created := s.created + 1,
                                          handles := s.handles[s.created := Tcp(t.ip, 0, false, !dialed)]))
      && s'.connects == (if dialed then s.connects[i := s.created] else s.connects)
      && (dialed && t.timeout > 0 ==> Get(s'.timers, i) == Some(Some(s.created)))
      && (id != i ==> Get(s'.timers, id) == Get(s.timers, id))
      && s'.writes == s.writes && s'.running == s.running
  {
    SameIp(s, s.(queued := s.queued - {i}, tasks := s.tasks[i := s.queued[i]]), s.queued[i].ip);
  }

  /** A connect is dialed on a new handle if the loop runs, no connection has the address and the
      request is accepted; else it is posted at once, and a handle that was opened for it is closed. */
  lemma ConnectDoes(s: Client, i: TaskId, o: Outcome, id: TaskId)
    requires Enabled(s, Async(i, o)) && s.queued[i].Connect?
    ensures var s', v, t := Apply(s, Async(i, o)), Look(s, id), s.queued[i];
      var refused := !s.running || HasIp(s, t.ip) || o.InitFails?;
      var dialed := !refused && o.Accepted?;
      && Look(s', id) == (if id != i then v
                          else if dialed then
                            v.(queued := None, task := Some(t), dialing := true, timer := v.timer || t.timeout > 0)
                          else FinishedView(v.(queued := None)))
      && WiresOf(s') == (if refused then WiresOf(s)
                         else WiresOf(s).(created := s.created + 1,
                                          handles := s.handles[s.created := Tcp(t.ip, 0, false, !dialed)]))
      && s'.connects == (if dialed then s.connects[i := s.created] else s.connects)
      && (dialed && t.timeout > 0 ==> Get(s'.timers, i) == Some(Some(s.created)))
      && (id != i ==> Get(s'.timers, id) == Get(s.timers, id))
      && s'.writes == s.writes && s'.running == s.running
  {
    if s.running {
      ConnectLook(s, i, o, id);
      ConnectWires(s, i, o, id);
    } else {
      FinishLook(s.(queued := s.queued - {i}), {i}, id);
    }
  }

  /** A write completion with an error posts its task, which leaves both tables; one without starts
      the timer of a task that has a timeout. */
  lemma WriteDoes(s: Client, i: TaskId, ok: bool, id: TaskId)
    requires Enabled(s, WriteDone(i, ok))
    ensures var s', v := Apply(s, WriteDone(i, ok)), Look(s, id);
      var w := v.(writing := false, late := v.late || v.task.None?, doubled := v.doubled || (v.task.None? && !ok));
      && Look(s', id) == (if id != i then v
                          else if ok then w.(timer := v.timer || s.writes[i] > 0) else FinishedView(w))
      && s'.writes == s.writes - {i}
      && (ok && s.writes[i] > 0 ==> Get(s'.timers, i) == Some(None))
      && (id != i ==> Get(s'.timers, id) == Get(s.timers, id))
      && WiresOf(s') == WiresOf(s) && s'.queued == s.queued && s'.connects == s.connects && s'.running == s.running
  {
    var gone := i !in s.tasks;
    var s1 := s.(writes := s.writes - {i}, hist := NoteLate(s.hist, i, gone, ok));
    NoteLook(s, i, gone, ok, id);
    FinishLook(s1, {i}, id);
    assert Look(s1.(timers := s1.timers[i := None]), id) ==
      if id == i then Look(s1, id).(timer := true) else Look(s1, id);
  }

  /** A timeout takes its task out of both tables, posts it if it was still in the task table, and
      closes the handle that is being dialed. */
  lemma TimeoutDoes(s: Client, i: TaskId, id: TaskId)
    requires Enabled(s, Timeout(i))
    ensures var s', v, h := Apply(s, Timeout(i)), Look(s, id), s.timers[i];
      && Look(s', id) == (if id != i then v else if i in s.tasks then FinishedView(v) else v.(timer := false))
      && WiresOf(s') == WiresOf(s).(handles :=
           if h.Some? && h.value in s.handles
           then s.handles[h.value := s.handles[h.value].(closing := true, reading := false)] else s.handles)
      && (id != i ==> Get(s'.timers, id) == Get(s.timers, id))
      && SameRequests(s, s') && s'.running == s.running
  {
    TimeoutMeans(s, i, id);
    TimeoutWires(s, i, id);
    if s.timers[i].Some? { ShutOne(s.handles, s.timers[i].value); }
  }

  lemma TimeoutWires(s: Client, i: TaskId, id: TaskId)
    requires i in s.timers
    ensures var s', h := TimeoutStep(s, i), s.timers[i];
      && WiresOf(s') == WiresOf(s).(handles := if h.Some? then Shut(s.handles, {h.value}) else s.handles)
      && (id != i ==> Get(s'.timers, id) == Get(s.timers, id))
      && SameRequests(s, s') && s'.running == s.running
  {
    var s1 := s.(timers := s.timers - {i});
    FinishRest(s1, i, id);
  }

  /** A connect callback posts its task, unless it is no longer in the table.  The connection enters
      the table under the next id, if that is free, and is reported up; or its handle is closed. */
  lemma ConnectedDoes(s: Client, i: TaskId, ok: bool, id: TaskId)
    requires Enabled(s, ConnectDone(i, ok))
    ensures var s', v, h, c := Apply(s, ConnectDone(i, ok)), Look(s, id), s.connects[i], Id(s.allocs);
      && Look(s', id) == (if id != i then v
                          else if i in s.tasks then FinishedView(v.(dialing := false)) else v.(dialing := false))
      && s'.connects == s.connects - {i} && s'.queued == s.queued && s'.writes == s.writes && s'.running == s.running
      && (id != i ==> Get(s'.timers, id) == Get(s.timers, id))
      && s'.created == s.created && s'.hist.downs == s.hist.downs
      && (if i in s.tasks && ok then
            && s'.handles == s.handles[h := s.handles[h].(connId := c, reading := true)]
            && s'.conns == (if c in s.conns then s.conns else s.conns[c := h])
            && s'.allocs == s.allocs + 1 && Counted(s.hist.ups, s'.hist.ups, h)
          else
            && s'.handles == (if i in s.tasks then s.handles[h := s.handles[h].(closing := true, reading := false)]
                              else s.handles)
            && s'.conns == s.conns && s'.allocs == s.allocs && s'.hist.ups == s.hist.ups)
  {
    if i in s.tasks {
      ConnectedLook(s, i, ok, id);
      ShutOne(s.handles, s.connects[i]);
      BumpCounts(s.hist.ups, s.connects[i]);
    } else {
      UndialLook(s, i, id);
    }
  }

  /** A lost connection leaves the table, is closed and reported down, and exactly its requests are
      posted. */
  lemma ReadErrorDoes(s: Client, h: HandleId, id: TaskId)
    requires Enabled(s, ReadError(h))
    ensures var s', v, c := Apply(s, ReadError(h)), Look(s, id), s.handles[h].connId;
      && Look(s', id) == (if id in s.tasks && s.tasks[id].Rw? && s.tasks[id].conn == c then FinishedView(v) else v)
      && s'.handles == s.handles[h := s.handles[h].(closing := true, reading := false)]
      && s'.conns == s.conns - {c} && Counted(s.hist.downs, s'.hist.downs, h) && s'.hist.ups == s.hist.ups
      && s'.created == s.created && s'.allocs == s.allocs && SameRequests(s, s') && s'.running == s.running
  {
    var c := s.handles[h].connId;
    CloseLook(s, h, id);
    DropLook(Close(s, h), h, c, id);
    FinishLook(Drop(Close(s, h), h, c), RwOn(s.tasks, c), id);
    ShutOne(s.handles, h);
    BumpCounts(s.hist.downs, h);
  }

  /** A closed handle goes; if the table still has its id, the connection leaves and is reported down. */
  lemma ClosedDoes(s: Client, h: HandleId, id: TaskId)
    requires Enabled(s, Closed(h))
    ensures var s', c := Apply(s, Closed(h)), s.handles[h].connId;
      && Look(s', id) == Look(s, id) && s'.handles == s.handles - {h} && s'.conns == s.conns - {c}
      && (if c in s.conns then Counted(s.hist.downs, s'.hist.downs, h) else s'.hist.downs == s.hist.downs)
      && s'.hist.ups == s.hist.ups && s'.created == s.created && s'.allocs == s.allocs
      && s'.timers == s.timers && SameRequests(s, s') && s'.running == s.running
  {
    var c := s.handles[h].connId;
    ClosedLook(s, h, id);
    BumpCounts(s.hist.downs, h);
    if c !in s.conns { assert s.conns - {c} == s.conns; }
  }

  lemma ClosedLook(s: Client, h: HandleId, id: TaskId)
    requires h in s.handles
    ensures Look(ClosedStep(s, h), id) == Look(s, id)
  {
    var c := s.handles[h].connId;
    if c in s.conns {
      DropLook(s, h, c, id);
      ForgetLook(Drop(s, h, c), h, id);
    } else {
      ForgetLook(s, h, id);
    }
  }

  lemma ForgetLook(s: Client, h: HandleId, id: TaskId)
    ensures Look(Forget(s, h), id) == Look(s, id)
  {
  }

  /** A shutdown empties the three tables, posts every task of the task table once, and closes the
      handles of all connections and of all connects with a timer; none is reported down. */
  lemma ShutdownDoes(s: Client, id: TaskId, h: HandleId)
    requires Enabled(s, Shutdown)
    ensures var s', v := Apply(s, Shutdown), Look(s, id);
      && Look(s', id) == (if id in s.tasks then FinishedView(v) else v.(timer := false))
      && s'.tasks == map[] && s'.timers == map[] && s'.conns == map[] && !s'.running
      && (h in s'.handles <==> h in s.handles)
      && (var shut := (exists c :: c in s.conns && s.conns[c] == h) ||
            (exists i :: i in s.timers && s.timers[i] == Some(h));
          h in s.handles ==>
            s'.handles[h] == if shut then s.handles[h].(closing := true, reading := false) else s.handles[h])
      && s'.hist.ups == s.hist.ups && s'.hist.downs == s.hist.downs
      && s'.created == s.created && s'.allocs == s.allocs && SameRequests(s, s')
  {
    assert Look(Halt(s), id) == Look(s, id).(timer := false);
    FinishLook(Halt(s), s.tasks.Keys, id);
    assert h in ShutdownHandles(s) <==>
      (exists c :: c in s.conns && s.conns[c] == h) || (exists i :: i in s.timers && s.timers[i] == Some(h));
  }
}
