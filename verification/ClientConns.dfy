/** Connections of the client loop: the connection table, connect requests and the up and down
    reports, over every run of ClientCore. */
module ClientConns {
  import opened Common
  import opened GenId

  import opened ClientCore

  ghost function Count(m: map<HandleId, nat>, h: HandleId): nat { if h in m then m[h] else 0 }

  /** The table entry under `c` is a connection that carries this id. */
  ghost predicate EntryOk(s: Client, c: ConnId) {
    c in s.conns && c != INVALID_CONNID && s.conns[c] in s.handles && s.handles[s.conns[c]].connId == c
  }

  ghost predicate Listed(s: Client, h: HandleId) {
    h in s.handles && s.handles[h].connId in s.conns && s.conns[s.handles[h].connId] == h
  }

  ghost predicate LiveOk(s: Client, h: HandleId)
    requires h in s.handles
  {
    var t := s.handles[h];
    && h < s.created
    && (t.reading ==> !t.closing && t.connId != INVALID_CONNID)
    && Count(s.hist.ups, h) == (if t.connId != INVALID_CONNID then 1 else 0)
    && (t.connId != INVALID_CONNID ==> h in s.hist.born && s.hist.born[h] < s.allocs && t.connId == Id(s.hist.born[h]))
    && (!s.hist.clash ==>
          && (t.reading ==> Listed(s, h))
          && Count(s.hist.downs, h) <= Count(s.hist.ups, h)
          && (Listed(s, h) ==> Count(s.hist.downs, h) == 0)
          && (s.running && !Listed(s, h) ==> Count(s.hist.downs, h) == Count(s.hist.ups, h)))
  }

  /** Up at most once, and down at most once after that. */
  ghost predicate ReportsOk(s: Client, h: HandleId) {
    && Count(s.hist.ups, h) <= 1
    && (!s.hist.clash ==> Count(s.hist.downs, h) <= Count(s.hist.ups, h))
  }

  ghost predicate HandleOk(s: Client, h: HandleId) {
    && ReportsOk(s, h)
    && (h in s.handles ==> LiveOk(s, h))
    && (!s.hist.clash && s.running && h !in s.handles ==> Count(s.hist.downs, h) == Count(s.hist.ups, h))
    && (h >= s.created ==> Count(s.hist.ups, h) == 0 && Count(s.hist.downs, h) == 0)
  }

  /** A connect request that is still with libuv. */
  ghost predicate DialOk(s: Client, i: TaskId) {
    && i in s.connects && s.connects[i] in s.handles
    && var t := s.handles[s.connects[i]];
    && t.connId == INVALID_CONNID && !t.reading
    && (i in s.tasks ==> !t.closing)
    && i in s.hist.kind && s.hist.kind[i].Connect? && s.hist.kind[i].ip == t.ip
  }

  ghost predicate TimerOk(s: Client, i: TaskId) {
    i in s.timers && (s.timers[i].Some? ==> i in s.connects && s.connects[i] == s.timers[i].value)
  }

  ghost predicate Injective(s: Client) {
    forall i, j :: i in s.connects && j in s.connects && i != j ==> s.connects[i] != s.connects[j]
  }

  ghost predicate IdsApart(s: Client) {
    forall h, k :: h in s.handles && k in s.handles && h != k && s.handles[h].connId != INVALID_CONNID ==>
      s.handles[h].connId != s.handles[k].connId
  }

  ghost predicate ConnsOk(s: Client) {
    && (forall c {:trigger EntryOk(s, c)} :: c in s.conns ==> EntryOk(s, c))
    && (forall h: HandleId {:trigger HandleOk(s, h)} :: HandleOk(s, h))
    && (forall i {:trigger DialOk(s, i)} :: i in s.connects ==> DialOk(s, i))
    && (forall i {:trigger TimerOk(s, i)} :: i in s.timers ==> TimerOk(s, i))
    && Injective(s)
    && (!s.hist.clash ==> IdsApart(s))
  }

  // ----- the building blocks keep the invariant

  lemma FinishConns(s: Client, ids: set<TaskId>)
    requires ConnsOk(s)
    ensures ConnsOk(FinishAll(s, ids))
  {
    var s' := FinishAll(s, ids);
    forall c {:trigger EntryOk(s', c)} | c in s'.conns ensures EntryOk(s', c) { assert EntryOk(s, c); }
    forall h: HandleId {:trigger HandleOk(s', h)} ensures HandleOk(s', h) { assert HandleOk(s, h); }
    forall i {:trigger DialOk(s', i)} | i in s'.connects ensures DialOk(s', i) { assert DialOk(s, i); }
    forall i {:trigger TimerOk(s', i)} | i in s'.timers ensures TimerOk(s', i) { assert TimerOk(s, i); }
  }

  lemma CloseConns(s: Client, h: HandleId)
    requires ConnsOk(s) && forall i :: i in s.connects && s.connects[i] == h ==> i !in s.tasks
    ensures ConnsOk(Close(s, h))
  {
    var s' := Close(s, h);
    forall c {:trigger EntryOk(s', c)} | c in s'.conns ensures EntryOk(s', c) { assert EntryOk(s, c); }
    forall k: HandleId {:trigger HandleOk(s', k)} ensures HandleOk(s', k) { assert HandleOk(s, k); }
    forall i {:trigger DialOk(s', i)} | i in s'.connects ensures DialOk(s', i) { assert DialOk(s, i); }
    forall i {:trigger TimerOk(s', i)} | i in s'.timers ensures TimerOk(s', i) { assert TimerOk(s, i); }
  }

  lemma DropConns(s: Client, h: HandleId, c: ConnId)
    requires ConnsOk(s) && h in s.handles && s.handles[h].connId == c && !s.handles[h].reading
    requires !s.hist.clash ==> Listed(s, h)
    ensures ConnsOk(Drop(s, h, c))
  {
    var s' := Drop(s, h, c);
    forall d {:trigger EntryOk(s', d)} | d in s'.conns ensures EntryOk(s', d) { assert EntryOk(s, d); }
    assert HandleOk(s, h);
    if !s.hist.clash { assert EntryOk(s, c); }
    forall k: HandleId {:trigger HandleOk(s', k)} ensures HandleOk(s', k) { assert HandleOk(s, k); }
    forall i {:trigger DialOk(s', i)} | i in s'.connects ensures DialOk(s', i) { assert DialOk(s, i); }
    forall i {:trigger TimerOk(s', i)} | i in s'.timers ensures TimerOk(s', i) { assert TimerOk(s, i); }
  }

  lemma ForgetConns(s: Client, h: HandleId)
    requires ConnsOk(s) && h in s.handles && h !in s.connects.Values && s.handles[h].connId !in s.conns
    ensures ConnsOk(Forget(s, h))
  {
    var s' := Forget(s, h);
    forall c {:trigger EntryOk(s', c)} | c in s'.conns ensures EntryOk(s', c) { assert EntryOk(s, c); }
    forall k: HandleId {:trigger HandleOk(s', k)} ensures HandleOk(s', k) { assert HandleOk(s, k); }
    forall i {:trigger DialOk(s', i)} | i in s'.connects ensures DialOk(s', i) { assert DialOk(s, i); }
    forall i {:trigger TimerOk(s', i)} | i in s'.timers ensures TimerOk(s', i) { assert TimerOk(s, i); }
  }

  lemma OpenConns(s: Client, ip: string, closing: bool)
    requires ConnsOk(s)
    ensures ConnsOk(Open(s, ip, closing))
  {
    var s' := Open(s, ip, closing);
    assert HandleOk(s, s.created);
    forall c {:trigger EntryOk(s', c)} | c in s'.conns ensures EntryOk(s', c) {
      assert EntryOk(s, c) && HandleOk(s, s.conns[c]);
    }
    forall k: HandleId {:trigger HandleOk(s', k)} ensures HandleOk(s', k) { assert HandleOk(s, k); }
    forall i {:trigger DialOk(s', i)} | i in s'.connects ensures DialOk(s', i) {
      assert DialOk(s, i) && HandleOk(s, s.connects[i]);
    }
    forall i {:trigger TimerOk(s', i)} | i in s'.timers ensures TimerOk(s', i) { assert TimerOk(s, i); }
  }

  lemma DialConns(s: Client, id: TaskId, h: HandleId, timeout: nat)
    requires ConnsOk(s) && id !in s.connects && h in s.handles && h !in s.connects.Values
    requires s.handles[h].connId == INVALID_CONNID && !s.handles[h].reading && !s.handles[h].closing
    requires id in s.hist.kind && s.hist.kind[id].Connect? && s.hist.kind[id].ip == s.handles[h].ip
    ensures ConnsOk(Dial(s, id, h, timeout))
  {
    var s' := Dial(s, id, h, timeout);
    forall c {:trigger EntryOk(s', c)} | c in s'.conns ensures EntryOk(s', c) { assert EntryOk(s, c); }
    forall k: HandleId {:trigger HandleOk(s', k)} ensures HandleOk(s', k) { assert HandleOk(s, k); }
    forall i {:trigger DialOk(s', i)} | i in s'.connects ensures DialOk(s', i) { assert i != id ==> DialOk(s, i); }
    forall i {:trigger TimerOk(s', i)} | i in s'.timers ensures TimerOk(s', i) {
      assert i in s.timers ==> TimerOk(s, i);
    }
  }

  lemma EstablishConns(s: Client, h: HandleId)
    requires ConnsOk(s) && h in s.handles && h !in s.connects.Values
    requires s.handles[h].connId == INVALID_CONNID && !s.handles[h].closing
    ensures ConnsOk(Establish(s, h))
  {
    var s', c := Establish(s, h), Id(s.allocs);
    IdsDistinct(s.allocs, s.allocs);
    assert HandleOk(s, h);
    forall d {:trigger EntryOk(s', d)} | d in s'.conns ensures EntryOk(s', d) { assert d in s.conns ==> EntryOk(s, d); }
    forall k: HandleId {:trigger HandleOk(s', k)} ensures HandleOk(s', k) {
      assert HandleOk(s, k);
      if c in s.conns { assert EntryOk(s, c); }
    }
    forall i {:trigger DialOk(s', i)} | i in s'.connects ensures DialOk(s', i) { assert DialOk(s, i); }
    forall i {:trigger TimerOk(s', i)} | i in s'.timers ensures TimerOk(s', i) { assert TimerOk(s, i); }
  }

  // ----- every event keeps the invariant

  /** Two states that agree on everything the invariant looks at, except that tasks may have left
      the table and timers without a handle may have come or timers gone. */
  ghost predicate Lighter(s: Client, s': Client) {
    && s'.running == s.running && s'.conns == s.conns && s'.handles == s.handles && s'.connects == s.connects
    && s'.created == s.created && s'.allocs == s.allocs
    && s'.hist.ups == s.hist.ups && s'.hist.downs == s.hist.downs && s'.hist.born == s.hist.born
    && s'.hist.clash == s.hist.clash
    && (forall i :: i in s.hist.kind ==> i in s'.hist.kind && s'.hist.kind[i] == s.hist.kind[i])
    && (forall i :: i in s.connects && i in s'.tasks ==> i in s.tasks)
    && (forall i :: i in s'.timers ==> s'.timers[i].None? || (i in s.timers && s.timers[i] == s'.timers[i]))
  }

  lemma LighterConns(s: Client, s': Client)
    requires ConnsOk(s) && Lighter(s, s')
    ensures ConnsOk(s')
  {
    forall c {:trigger EntryOk(s', c)} | c in s'.conns ensures EntryOk(s', c) { assert EntryOk(s, c); }
    forall h: HandleId {:trigger HandleOk(s', h)} ensures HandleOk(s', h) { assert HandleOk(s, h); }
    forall i {:trigger DialOk(s', i)} | i in s'.connects ensures DialOk(s', i) { assert DialOk(s, i); }
    forall i {:trigger TimerOk(s', i)} | i in s'.timers ensures TimerOk(s', i) {
      assert i in s.timers ==> TimerOk(s, i);
    }
  }

  lemma SubmitConns(s: Client, t: Task)
    requires ConnsOk(s) && TasksOk(s)
    ensures ConnsOk(SubmitStep(s, t))
  {
    assert TaskOk(s, s.issued);
    assert s.issued !in s.hist.kind by { assert Look(s, s.issued) == Unknown; }
    LighterConns(s, SubmitStep(s, t));
  }

  /** A queued task has no connect request and no other bookkeeping yet. */
  lemma QueuedFresh(s: Client, id: TaskId)
    requires ConnsOk(s) && TasksOk(s) && id in s.queued
    ensures id !in s.connects && id in s.hist.kind && s.hist.kind[id] == s.queued[id] && id !in s.tasks
  {
    assert TaskOk(s, id);
  }

  lemma RwConns(s: Client, id: TaskId, conn: ConnId, timeout: nat, outcome: Outcome)
    requires ConnsOk(s) && id !in s.connects
    ensures ConnsOk(RwStep(s, id, conn, timeout, outcome))
  {
    var s1 := s.(tasks := s.tasks[id := Rw(conn, timeout)]);
    LighterConns(s, s1);
    FinishConns(s1, {id});
    LighterConns(s1, s1.(writes := s1.writes[id := timeout]));
  }

  lemma ConnectConns(s: Client, id: TaskId, ip: string, timeout: nat, outcome: Outcome)
    requires ConnsOk(s) && id !in s.connects && id in s.hist.kind && s.hist.kind[id] == Connect(ip, timeout)
    ensures ConnsOk(ConnectStep(s, id, ip, timeout, outcome))
  {
    var s1 := s.(tasks := s.tasks[id := Connect(ip, timeout)]);
    LighterConns(s, s1);
    FinishConns(s1, {id});
    OpenConns(s1, ip, true);
    FinishConns(Open(s1, ip, true), {id});
    OpenConns(s1, ip, false);
    assert s1.created !in s1.connects.Values by {
      forall i | i in s1.connects ensures s1.connects[i] != s1.created {
        assert DialOk(s1, i) && HandleOk(s1, s1.connects[i]);
      }
    }
    DialConns(Open(s1, ip, false), id, s1.created, timeout);
  }

  lemma AsyncConns(s: Client, id: TaskId, outcome: Outcome)
    requires ConnsOk(s) && TasksOk(s) && id in s.queued
    ensures ConnsOk(AsyncStep(s, id, outcome))
  {
    QueuedFresh(s, id);
    var s1 := s.(queued := s.queued - {id});
    LighterConns(s, s1);
    FinishConns(s1, {id});
    if s.queued[id].Rw? { RwConns(s1, id, s.queued[id].conn, s.queued[id].timeout, outcome); }
    else { ConnectConns(s1, id, s.queued[id].ip, s.queued[id].timeout, outcome); }
  }

  lemma WriteConns(s: Client, id: TaskId, ok: bool)
    requires ConnsOk(s) && id in s.writes
    ensures ConnsOk(WriteStep(s, id, ok))
  {
    var s1 := s.(writes := s.writes - {id}, hist := NoteLate(s.hist, id, id !in s.tasks, ok));
    LighterConns(s, s1);
    FinishConns(s1, {id});
    LighterConns(s1, s1.(timers := s1.timers[id := None]));
  }

  lemma TimeoutConns(s: Client, id: TaskId)
    requires ConnsOk(s) && id in s.timers
    ensures ConnsOk(TimeoutStep(s, id))
  {
    var s1 := s.(timers := s.timers - {id});
    LighterConns(s, s1);
    FinishConns(s1, {id});
    assert TimerOk(s, id);
    if s.timers[id].Some? {
      var s2 := if id in s1.tasks then Finish(s1, id) else s1;
      CloseConns(s2, s.timers[id].value);
    }
  }

  lemma ConnectedConns(s: Client, id: TaskId, ok: bool)
    requires ConnsOk(s) && TasksOk(s) && id in s.connects
    ensures s.connects[id] in s.handles && ConnsOk(ConnectedStep(s, id, ok))
  {
    assert DialOk(s, id);
    var h := s.connects[id];
    if id in s.tasks {
      var s0 := s.(tasks := s.tasks - {id}, timers := s.timers - {id});
      LighterConns(s, s0);
      UndialConns(s0, id);
      SettleConns(s0.(connects := s.connects - {id}), h, id, ok);
    } else {
      assert TaskOk(s, id);
      UndialConns(s, id);
    }
  }

  lemma SettleConns(s: Client, h: HandleId, id: TaskId, ok: bool)
    requires ConnsOk(s) && h in s.handles && h !in s.connects.Values
    requires s.handles[h].connId == INVALID_CONNID && !s.handles[h].closing
    ensures ConnsOk(Finish(if ok then Establish(s, h) else Close(s, h), id))
  {
    if ok {
      EstablishConns(s, h);
      FinishConns(Establish(s, h), {id});
    } else {
      CloseConns(s, h);
      FinishConns(Close(s, h), {id});
    }
  }

  lemma UndialConns(s: Client, id: TaskId)
    requires ConnsOk(s) && id in s.connects && id !in s.timers
    ensures ConnsOk(s.(connects := s.connects - {id}))
    ensures s.connects[id] !in (s.connects - {id}).Values
  {
    var s' := s.(connects := s.connects - {id});
    forall c {:trigger EntryOk(s', c)} | c in s'.conns ensures EntryOk(s', c) { assert EntryOk(s, c); }
    forall h: HandleId {:trigger HandleOk(s', h)} ensures HandleOk(s', h) { assert HandleOk(s, h); }
    forall i {:trigger DialOk(s', i)} | i in s'.connects ensures DialOk(s', i) { assert DialOk(s, i); }
    forall i {:trigger TimerOk(s', i)} | i in s'.timers ensures TimerOk(s', i) { assert TimerOk(s, i); }
  }

  lemma ReadErrorConns(s: Client, h: HandleId)
    requires ConnsOk(s) && h in s.handles && s.handles[h].reading
    ensures ConnsOk(ReadErrorStep(s, h))
  {
    assert HandleOk(s, h);
    forall i | i in s.connects ensures s.connects[i] != h { assert DialOk(s, i); }
    var c := s.handles[h].connId;
    CloseConns(s, h);
    DropConns(Close(s, h), h, c);
    FinishConns(Drop(Close(s, h), h, c), RwOn(s.tasks, c));
  }

  lemma ResponseConns(s: Client, id: TaskId)
    requires ConnsOk(s)
    ensures ConnsOk(ResponseStep(s, id))
  {
    FinishConns(s, {id});
    LighterConns(s, s.(timers := s.timers - {id}));
  }

  lemma ClosedConns(s: Client, h: HandleId)
    requires ConnsOk(s) && h in s.handles && s.handles[h].closing && h !in s.connects.Values
    ensures ConnsOk(ClosedStep(s, h))
  {
    assert HandleOk(s, h);
    var c := s.handles[h].connId;
    if c in s.conns {
      assert EntryOk(s, c);
      DropConns(s, h, c);
      ForgetConns(Drop(s, h, c), h);
    } else {
      ForgetConns(s, h);
    }
  }

  lemma HaltConns(s: Client)
    requires ConnsOk(s)
    ensures ConnsOk(Halt(s).(tasks := map[]))
  {
    var s' := Halt(s).(tasks := map[]);
    forall h: HandleId {:trigger HandleOk(s', h)} ensures HandleOk(s', h) {
      assert HandleOk(s, h);
      assert Listed(s, h) ==> h in ShutdownHandles(s);
    }
    forall i {:trigger DialOk(s', i)} | i in s'.connects ensures DialOk(s', i) { assert DialOk(s, i); }
  }

  lemma ShutdownConns(s: Client)
    requires ConnsOk(s)
    ensures ConnsOk(ShutdownStep(s))
  {
    HaltConns(s);
    LighterConns(Halt(s).(tasks := map[]), FinishAll(Halt(s), s.tasks.Keys));
  }

  lemma ConnsKept(s: Client, e: Event)
    requires ConnsOk(s) && TasksOk(s) && Enabled(s, e)
    ensures ConnsOk(Apply(s, e))
  {
    match e
    case Submit(t) => SubmitConns(s, t);
    case Async(i, o) => AsyncConns(s, i, o);
    case WriteDone(i, ok) => WriteConns(s, i, ok);
    case Timeout(i) => TimeoutConns(s, i);
    case ConnectDone(i, ok) => ConnectedConns(s, i, ok);
    case ReadError(h) => ReadErrorConns(s, h);
    case Response(i) => ResponseConns(s, i);
    case Closed(h) => ClosedConns(s, h);
    case Shutdown => ShutdownConns(s);
  }

  // ----- what holds over every run

  ghost predicate Sound(s: Client) { TasksOk(s) && ConnsOk(s) }

  lemma SoundKept(s: Client, e: Event)
    requires Sound(s) && Enabled(s, e)
    ensures Sound(Apply(s, e))
  {
    TasksKept(s, e);
    ConnsKept(s, e);
  }

  lemma {:induction false} RunKeepsSound(s: Client, es: seq<Event>)
    requires Sound(s) && IsRun(s, es)
    ensures Sound(Final(s, es))
    decreases |es|
  {
    if es != [] {
      SoundKept(s, es[0]);
      RunKeepsSound(Apply(s, es[0]), es[1..]);
    }
  }

  lemma InitSound()
    ensures Sound(Init)
  {
    InitTasks();
    forall h: HandleId {:trigger HandleOk(Init, h)} ensures HandleOk(Init, h) { }
  }

  /** In every run, each table entry is a connection under its own id, which is never 0. */
  lemma EntriesUnderOwnId(es: seq<Event>, c: ConnId)
    requires IsRun(Init, es) && c in Final(Init, es).conns
    ensures EntryOk(Final(Init, es), c)
  {
    InitSound();
    RunKeepsSound(Init, es);
    assert EntryOk(Final(Init, es), c);
  }

  /** In every run, a connection is reported up exactly once if it was established, and not
      otherwise.  While no id is handed out that another open connection still carries, it is
      reported down at most once and only after that, and exactly once, until the loop is shut
      down, when it is no longer in the table. */
  lemma ReportedOnce(es: seq<Event>, h: HandleId)
    requires IsRun(Init, es)
    ensures var s := Final(Init, es);
      && (h in s.handles ==> Count(s.hist.ups, h) == if s.handles[h].connId != INVALID_CONNID then 1 else 0)
      && Count(s.hist.ups, h) <= 1
      && (!s.hist.clash ==>
            && Count(s.hist.downs, h) <= Count(s.hist.ups, h)
            && (Listed(s, h) ==> Count(s.hist.downs, h) == 0)
            && (s.running && !Listed(s, h) ==> Count(s.hist.downs, h) == Count(s.hist.ups, h)))
  {
    InitSound();
    RunKeepsSound(Init, es);
    assert HandleOk(Final(Init, es), h);
  }

  /** Every open connection got its id less than 65535 ids ago. */
  ghost predicate AllRecent(s: Client) {
    forall h :: h in s.handles && h in s.hist.born ==> s.allocs < s.hist.born[h] + CYCLE
  }

  /** An id is still in use when it is handed out again only if the connection that carries it
      got it at least 65535 ids earlier. */
  lemma ClashNeedsWrap(es: seq<Event>, id: TaskId)
    requires IsRun(Init, es) && Enabled(Final(Init, es), ConnectDone(id, true))
    requires AllRecent(Final(Init, es))
    ensures var s := Final(Init, es); Apply(s, ConnectDone(id, true)).hist.clash == s.hist.clash
  {
    InitSound();
    RunKeepsSound(Init, es);
    var s := Final(Init, es);
    forall k | k in s.handles ensures s.handles[k].connId != Id(s.allocs) {
      assert HandleOk(s, k);
      IdFree(s.handles[k].connId, if k in s.hist.born then s.hist.born[k] else 0, s.allocs);
    }
  }

  lemma IdFree(c: ConnId, born: nat, now: nat)
    requires c == INVALID_CONNID || (c == Id(born) && born < now < born + CYCLE)
    ensures c != Id(now)
  {
    IdsDistinct(now, now);
    IdsDistinct(born, now);
  }

  /** Closing a connection that was never established removes nothing and reports nothing. */
  lemma CloseUnestablished(es: seq<Event>, h: HandleId)
    requires IsRun(Init, es) && Enabled(Final(Init, es), Closed(h))
    requires Final(Init, es).handles[h].connId == INVALID_CONNID
    ensures var s := Final(Init, es); var s' := Apply(s, Closed(h));
      s'.conns == s.conns && s'.hist == s.hist && s'.handles == s.handles - {h}
  {
    InitSound();
    RunKeepsSound(Init, es);
    var s := Final(Init, es);
    forall c | c in s.conns ensures c != INVALID_CONNID { assert EntryOk(s, c); }
  }

  // ----- a late write completion posts a task twice

  lemma DialOne(s: Client, id: TaskId, ip: string) returns (s': Client)
    requires Reachable(s) && s.running && s.conns == map[] && id in s.queued && s.queued[id] == Connect(ip, 0)
    ensures Reachable(s') && s'.running && s'.conns == map[] && s'.allocs == s.allocs && s'.queued == s.queued - {id}
    ensures s'.issued == s.issued
    ensures s'.created == s.created + 1 && s'.handles == s.handles[s.created := Tcp(ip, INVALID_CONNID, false, false)]
    ensures s'.connects == s.connects[id := s.created] && s'.tasks == s.tasks[id := Connect(ip, 0)]
  {
    ReachNext(s, Async(id, Accepted));
    s' := AsyncStep(s, id, Accepted);
  }

  lemma EstablishOne(s: Client, id: TaskId) returns (s': Client)
    requires Reachable(s) && id in s.tasks && id in s.connects && s.connects[id] in s.handles &&
      Id(s.allocs) !in s.conns
    ensures Reachable(s') && s'.allocs == s.allocs + 1 && s'.tasks == s.tasks - {id} && s'.connects == s.connects - {id}
    ensures s'.conns == s.conns[Id(s.allocs) := s.connects[id]]
    ensures s'.handles.Keys == s.handles.Keys && forall h :: h in s.handles ==> s'.handles[h].ip == s.handles[h].ip
    ensures s'.handles[s.connects[id]].reading && s'.handles[s.connects[id]].connId == Id(s.allocs)
    ensures s'.running == s.running && s'.issued == s.issued && s'.queued == s.queued
  {
    ReachNext(s, ConnectDone(id, true));
    s' := ConnectedStep(s, id, true);
  }

  /** A task whose request is being written when its connection is lost. */
  lemma SendOne(s: Client, c: ConnId) returns (s': Client, id: TaskId)
    requires Reachable(s) && s.running && c in s.conns && s.issued !in s.queued
    ensures Reachable(s') && s'.conns == s.conns && s'.handles == s.handles
    ensures id in s'.writes && id in s'.tasks && s'.tasks[id] == Rw(c, 0) && id in s'.hist.posts &&
      s'.hist.posts[id] == 0
  {
    ReachNext(s, Submit(Rw(c, 0)));
    var s1 := SubmitStep(s, Rw(c, 0));
    id := s.issued;
    ReachNext(s1, Async(id, Accepted));
    s' := AsyncStep(s1, id, Accepted);
  }

  lemma LoseAndFail(s: Client, h: HandleId, id: TaskId) returns (s': Client)
    requires Reachable(s) && h in s.handles && s.handles[h].reading && id in s.tasks && id in s.writes
    requires s.tasks[id] == Rw(s.handles[h].connId, 0) && id in s.hist.posts && s.hist.posts[id] == 0
    ensures Reachable(s') && id in s'.hist.posts && s'.hist.posts[id] == 2
  {
    ReachNext(s, ReadError(h));
    var s1 := ReadErrorStep(s, h);
    assert id in RwOn(s.tasks, s.handles[h].connId);
    assert s1.hist.posts[id] == 1 && id in s1.writes;
    ReachNext(s1, WriteDone(id, false));
    s' := WriteStep(s1, id, false);
  }

  /** So posting once is not guaranteed: a connection can be lost before its write completes. */
  lemma PostedTwice(ip: string) returns (s: Client, id: TaskId)
    ensures Reachable(s) && id in s.hist.posts && s.hist.posts[id] == 2
  {
    ReachInit();
    ReachNext(Init, Submit(Connect(ip, 0)));
    var s1 := SubmitStep(Init, Connect(ip, 0));
    var s2 := DialOne(s1, 0, ip);
    var s3 := EstablishOne(s2, 0);
    var s4;
    s4, id := SendOne(s3, Id(0));
    s := LoseAndFail(s4, 0, id);
  }
}
